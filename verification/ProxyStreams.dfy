/**
 What the proxy does, told from its completions alone: the bytes that arrive and are handed over in a
 session, when the timer runs, and what each completion leads to.
 */
module ProxyStreams {
  import opened Basics
  import opened SocketLifetime
  import opened ProxySpec
  import opened ProxyRuns

  // The streams.

  /** What lies in the buffer of one half: whatever the OS last put there. */
  function Filled(buf: seq<byte>, e: Event, side: Side): seq<byte> {
    if e.OsFills? && e.side == side then e.contents else buf
  }

  /** The bytes that have arrived in a session: a receive of n bytes adds the first n in the buffer. */
  function Arriving(buf: seq<byte>, arrived: seq<byte>, e: Event, side: Side): seq<byte> {
    match e
    case AcceptDone(true, _) => []
    case ReceiveDone(at, Ok(n)) => if at == side && n <= |buf| then arrived + buf[..n] else arrived
    case _ => arrived
  }

  /** How many bytes the OS has taken in a session. */
  function Taking(taken: nat, e: Event, side: Side): nat {
    match e
    case AcceptDone(true, _) => 0
    case SendDone(at, Ok(n)) => if at == side then taken + n else taken
    case _ => taken
  }

  function Arrived(buf: seq<byte>, arrived: seq<byte>, es: seq<Event>, side: Side): seq<byte>
    decreases |es|
  {
    if es == [] then arrived
    else Arrived(Filled(buf, es[0], side), Arriving(buf, arrived, es[0], side), es[1..], side)
  }

  function Taken(taken: nat, es: seq<Event>, side: Side): nat
    decreases |es|
  {
    if es == [] then taken else Taken(Taking(taken, es[0], side), es[1..], side)
  }

  /** A receive with data: the bytes in the buffer are recorded, and all of them given to the other half. */
  lemma ReceiveHandsOver(s: Slot, side: Side, count: nat)
    requires Inv(s) && Enabled(s, ReceiveDone(side, Ok(count))) && 0 < count
    ensures var u := Step(s, ReceiveDone(side, Ok(count)));
            && Get(u, side).received == Get(s, side).received + Get(s, side).recvbuf[..count]
            && Get(u, Other(side)).sendbuf == View(0, count) && Get(u, Other(side)).sock.sending
            && !Get(u, side).sock.receiving && u.timerArmed
            && Get(u, side).recvbuf == Get(s, side).recvbuf
  {
  }

  /** What one step makes of one half's streams. */
  predicate Streams(h: Half, u: Half, e: Event, side: Side) {
    && u.recvbuf == Filled(h.recvbuf, e, side)
    && u.received == Arriving(h.recvbuf, h.received, e, side)
    && |u.delivered| == Taking(|h.delivered|, e, side)
  }

  lemma CloseKeepsStreams(s: Slot, cancelTimer: bool, side: Side)
    ensures var h, u := Get(s, side), Get(CloseConnections(s, cancelTimer), side);
            u.recvbuf == h.recvbuf && u.received == h.received && u.delivered == h.delivered
  {
  }

  lemma DataStreams(s: Slot, at: Side, count: nat, side: Side)
    requires Enabled(s, ReceiveDone(at, Ok(count))) && |Get(s, at).recvbuf| == BUFFER_SIZE
    ensures Streams(Get(s, side), Get(Step(s, ReceiveDone(at, Ok(count))), side), ReceiveDone(at, Ok(count)), side)
  {
    if count == 0 {
      CloseKeepsStreams(FinishReceive(s, at), true, side);
      assert Get(s, side).received + Get(s, side).recvbuf[..0] == Get(s, side).received;
    }
  }

  lemma StretchLength(buf: seq<byte>, offset: nat, length: nat)
    requires offset + length <= |buf|
    ensures |Stretch(buf, offset, length)| == length
  {
  }

  lemma SentStreams(s: Slot, at: Side, count: nat, side: Side)
    requires count <= Get(s, at).sendbuf.length
    requires |Stretch(Get(s, Other(at)).recvbuf, Get(s, at).sendbuf.offset, count)| == count
    ensures var h, u := Get(s, side), Get(Sent(s, at, count), side);
            && u.recvbuf == h.recvbuf && u.received == h.received
            && |u.delivered| == |h.delivered| + (if at == side then count else 0)
  {
  }

  lemma BytesStreams(s: Slot, at: Side, count: nat, side: Side)
    requires Enabled(s, SendDone(at, Ok(count)))
    requires Get(s, at).sendbuf.offset + Get(s, at).sendbuf.length <= |Get(s, Other(at)).recvbuf|
    ensures Streams(Get(s, side), Get(Step(s, SendDone(at, Ok(count))), side), SendDone(at, Ok(count)), side)
  {
    StretchLength(Get(s, Other(at)).recvbuf, Get(s, at).sendbuf.offset, count);
    SentStreams(FinishSend(s, at), at, count, side);
  }

  lemma FailureStreams(s: Slot, e: Event, side: Side)
    requires Enabled(s, e) && (e.ReceiveDone? || e.SendDone?) && !e.result.Ok?
    ensures Streams(Get(s, side), Get(Step(s, e), side), e, side)
  {
    if e.ReceiveDone? {
      CloseKeepsStreams(FinishReceive(s, e.side), true, side);
    } else {
      CloseKeepsStreams(FinishSend(s, e.side), true, side);
    }
  }

  lemma TransferStreams(s: Slot, e: Event, side: Side)
    requires Inv(s) && Enabled(s, e) && (e.ReceiveDone? || e.SendDone?)
    ensures Streams(Get(s, side), Get(Step(s, e), side), e, side)
  {
    if !e.result.Ok? {
      FailureStreams(s, e, side);
    } else if e.ReceiveDone? {
      DataStreams(s, e.side, e.result.count, side);
    } else {
      InvOwns(s, Other(e.side));
      BytesStreams(s, e.side, e.result.count, side);
    }
  }

  lemma StepStreams(s: Slot, e: Event, side: Side)
    requires Inv(s) && Enabled(s, e)
    ensures Streams(Get(s, side), Get(Step(s, e), side), e, side)
  {
    if e.ReceiveDone? || e.SendDone? {
      TransferStreams(s, e, side);
    }
  }

  lemma {:induction false} RunStreams(s: Slot, es: seq<Event>, side: Side)
    requires Inv(s) && TimelyRun(s, es) && Possible(s, es)
    ensures var h, u := Get(s, side), Get(Run(s, es), side);
            u.received == Arrived(h.recvbuf, h.received, es, side) && |u.delivered| == Taken(|h.delivered|, es, side)
    decreases |es|
  {
    if es != [] {
      StepStreams(s, es[0], side);
      StepKeepsInv(s, es[0]);
      RunStreams(Step(s, es[0]), es[1..], side);
    }
  }

  /**
   The streams, from the completions alone: what has been handed over on the far socket in the current
   session is what has arrived on the near one, the first n bytes of its buffer at each receive of n, cut
   after as many bytes as the OS reported taken. What is in the view, if anything, is the rest.
   */
  predicate Follows(t: Slot, side: Side, arrived: seq<byte>, taken: nat) {
    var near, far := Get(t, side), Get(t, Other(side));
    taken <= |arrived| && far.delivered == arrived[..taken] && Owed(near, far) == arrived[taken..]
  }

  lemma InvFollows(t: Slot, side: Side)
    requires Inv(t)
    ensures Follows(t, side, Get(t, side).received, |Get(t, Other(side)).delivered|)
  {
    var near, far := Get(t, side), Get(t, Other(side));
    assert near.received == far.delivered + Owed(near, far);
  }

  lemma QuietStart(s: Slot, side: Side)
    requires Starts(s)
    ensures Get(s, side).received == [] && |Get(s, side).delivered| == 0
  {
  }

  /** After any timely run of a new slot, in each direction. */
  lemma DeliveryFollowsTheCompletions(s: Slot, es: seq<Event>, side: Side)
    requires Starts(s) && TimelyRun(s, es) && Possible(s, es)
    ensures Follows(Run(s, es), side, Arrived(Get(s, side).recvbuf, [], es, side), Taken(0, es, Other(side)))
  {
    StartKeepsInv(s);
    QuietStart(s, side);
    QuietStart(s, Other(side));
    RunFollows(s, es, side);
  }

  lemma RunFollows(s: Slot, es: seq<Event>, side: Side)
    requires Inv(s) && TimelyRun(s, es) && Possible(s, es)
    ensures Follows(Run(s, es), side, Arrived(Get(s, side).recvbuf, Get(s, side).received, es, side),
                    Taken(|Get(s, Other(side)).delivered|, es, Other(side)))
  {
    RunKeepsInv(s, es);
    RunStreams(s, es, side);
    RunStreams(s, es, Other(side));
    InvFollows(Run(s, es), side);
  }

  // The timer.

  /** Whether the timer runs after a completion. */
  function TimerAfter(s: Slot, e: Event): bool {
    match e
    case AcceptDone(accepted, _) => accepted
    case ReceiveDone(_, Ok(n)) => n > 0
    case SendDone(side, Ok(n)) => n < Get(s, side).sendbuf.length && (side.Server? || s.timerArmed)
    case OsFills(_, _) => s.timerArmed
    case _ => false
  }

  /**
   The timer starts with a session, with data received on either half and with the rest of a partial send on
   the server's; it is left alone by the rest of one on the client's; and everything else stops it.
   */
  lemma TimerFollowsTheCompletions(s: Slot, e: Event)
    requires Inv(s) && Enabled(s, e) && Timely(s, e)
    ensures Step(s, e).timerArmed == TimerAfter(s, e)
  {
    match e
    case ReceiveDone(side, result) => TransferTimer(s, e);
    case SendDone(side, result) => TransferTimer(s, e);
    case _ =>
  }

  lemma TransferTimer(s: Slot, e: Event)
    requires Inv(s) && Enabled(s, e) && (e.ReceiveDone? || e.SendDone?)
    ensures Step(s, e).timerArmed == TimerAfter(s, e)
  {
    assert Relaying(s) || Closing(s);
  }

  // The life of a session.

  /** Open halves: none, the server's while the client's connects, or both. */
  lemma SessionPhases(t: Slot)
    requires Reachable(t)
    ensures t.client.open ==> t.server.open && t.nconnections == 2
    ensures t.server.open && !t.client.open <==> t.client.sock.connecting
    ensures t.server.sock.accepting ==> !t.client.sock.life.handle
  {
    ReachableKeepsInv(t);
  }

  /** A half that has been closed: what was outstanding on it is cancelled, and goes before its disconnect. */
  predicate Cut(h: Half) {
    && !h.open
    && h.sock.receiveCancelled == h.sock.receiving && h.sock.sendCancelled == h.sock.sending
    && (h.sock.receiving || h.sock.sending ==> h.sock.disconnecting)
    && (!h.sock.accepting && !h.sock.connecting ==> (h.sock.disconnecting <==> h.sock.life.handle))
  }

  lemma ClosedIsCut(t: Slot, side: Side)
    requires Reachable(t) && !Get(t, side).open
    ensures Cut(Get(t, side))
  {
    ReachableKeepsInv(t);
  }

  /** Completions that end a session that relays: the end of either stream, an error, the timer. */
  predicate Ends(e: Event) {
    || e.TimerFires?
    || ((e.ReceiveDone? || e.SendDone?) && e.result.Error?)
    || (e.ReceiveDone? && e.result == Ok(0))
  }

  predicate CutOff(u: Slot) {
    && Cut(u.server) && u.server.sock.disconnecting && Cut(u.client) && u.client.sock.disconnecting
    && u.nconnections == 2 && !u.timerArmed
  }

  lemma CloseCuts(s: Slot, cancelTimer: bool)
    requires Flowing(s.server) && Flowing(s.client) && s.nconnections == 2 && (cancelTimer || !s.timerArmed)
    ensures CutOff(CloseConnections(s, cancelTimer))
  {
  }

  lemma RelayingEnds(s: Slot, e: Event)
    requires Relaying(s) && Enabled(s, e) && Ends(e)
    ensures CutOff(Step(s, e))
  {
    match e
    case ReceiveDone(side, result) => CloseCuts(FinishReceive(s, side), true);
    case SendDone(side, result) => CloseCuts(FinishSend(s, side), true);
    case TimerFires => CloseCuts(s.(timerArmed := false), false);
    case _ =>
  }

  /** Both halves are cut off and being disconnected, and the timer is stopped, whichever way a session ends. */
  lemma EveryEndClosesBoth(t: Slot, e: Event)
    requires Reachable(t) && t.client.open && Enabled(t, e) && Ends(e)
    ensures CutOff(Step(t, e))
  {
    ReachableKeepsInv(t);
    RelayingEnds(t, e);
  }

  /** What an accept leads to. */
  predicate AcceptLeadsTo(t: Slot, accepted: bool, init: Init, u: Slot) {
    if accepted then
      && u.server.open && !u.client.open && u.client.sock.connecting && u.nconnections == 1
      && !u.server.sock.accepting && u.sessions == t.sessions + 1
      && u.client.sock.life == Initialize(t.client.sock.life, init)
    else
      && u.server.sock.accepting && !u.server.open && !u.client.sock.connecting
      && u.accepts == t.accepts + 1 && u.sessions == t.sessions
      && u.server.sock.life == Initialize(Close(t.server.sock.life), init)
  }

  lemma WaitingLeadsOn(t: Slot, accepted: bool, init: Init)
    requires Waiting(t) && Sound(t.server.sock.life) && Enabled(t, AcceptDone(accepted, init))
    ensures AcceptLeadsTo(t, accepted, init, Step(t, AcceptDone(accepted, init)))
  {
  }

  /** An accept that succeeds connects, and nothing else; one that fails accepts again on a new socket. */
  lemma AcceptLeadsOn(t: Slot, accepted: bool, init: Init)
    requires Reachable(t) && Enabled(t, AcceptDone(accepted, init))
    ensures AcceptLeadsTo(t, accepted, init, Step(t, AcceptDone(accepted, init)))
  {
    ReachableKeepsInv(t);
    WaitingLeadsOn(t, accepted, init);
  }

  /** What a connect leads to. */
  predicate ConnectLeadsTo(connected: bool, u: Slot) {
    if connected then
      && u.server.open && u.client.open && u.server.sock.receiving && u.client.sock.receiving
      && u.nconnections == 2
    else
      && Cut(u.server) && u.server.sock.disconnecting && Cut(u.client) && !u.client.sock.disconnecting
      && !u.client.sock.life.handle && u.nconnections == 1
  }

  lemma DiallingLeadsOn(t: Slot, connected: bool)
    requires Dialling(t) && Enabled(t, ConnectDone(connected))
    ensures ConnectLeadsTo(connected, Step(t, ConnectDone(connected)))
  {
  }

  /** A connect that succeeds receives on both halves; one that fails closes the server half alone. */
  lemma ConnectLeadsOn(t: Slot, connected: bool)
    requires Reachable(t) && Enabled(t, ConnectDone(connected))
    ensures ConnectLeadsTo(connected, Step(t, ConnectDone(connected)))
  {
    ReachableKeepsInv(t);
    DiallingLeadsOn(t, connected);
  }
}
