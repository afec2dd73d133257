/** What every run of the load generator carries, how long it can be, and how it ends. */
module LoadGeneratorRuns {
  import opened Basics
  import opened LoadGeneratorSpec

  function Repeat(data: seq<byte>, n: nat): seq<byte> {
    if n == 0 then [] else Repeat(data, n - 1) + data
  }

  lemma {:induction false} RepeatIsLong(data: seq<byte>, m: nat, n: nat)
    requires m <= n
    ensures |Repeat(data, m)| + (n - m) * |data| == |Repeat(data, n)|
    ensures Repeat(data, m) <= Repeat(data, n)
  {
    if m < n {
      RepeatIsLong(data, m, n - 1);
      assert (n - m) * |data| == (n - 1 - m) * |data| + |data|;
    }
  }

  // The connection.

  /** A finished session carried the data in full, or a send on it failed and it carried less. */
  predicate Delivered(config: Config, s: Session) {
    var all := Repeat(config.data, config.transfers);
    s.carried <= all && (s.failed <==> |s.carried| < |all|)
  }

  predicate ConnInv(config: Config, c: Conn) {
    && c.disconnected == c.nloops == |c.sessions|
    && (forall i :: 0 <= i < |c.sessions| ==> Delivered(config, c.sessions[i]))
    && c.disconnects == c.nloops + Ind(c.phase.Disconnecting?)
    && c.connects == c.nloops + Ind(c.phase.Sending? || c.phase.Disconnecting?)
    && (if c.phase.Finished? then c.nloops == config.loops else c.nloops < config.loops)
    && (c.phase.Sending? ==>
          && c.ntransfers < config.transfers && !c.current.failed
          && c.offset + c.length == |config.data| && 0 < c.length
          && c.current.carried == Repeat(config.data, c.ntransfers) + config.data[..c.offset])
    && (c.phase.Disconnecting? ==> Delivered(config, c.current))
  }

  /** Carried so far: less than everything, as long as something is left to send. */
  lemma SendingIsPartial(config: Config, c: Conn)
    requires config.Valid() && ConnInv(config, c) && c.phase.Sending?
    ensures var all := Repeat(config.data, config.transfers);
            c.current.carried <= all && |c.current.carried| < |all|
  {
    var t := c.ntransfers;
    RepeatIsLong(config.data, t + 1, config.transfers);
    assert Repeat(config.data, t + 1) == Repeat(config.data, t) + config.data;
    assert Repeat(config.data, t) + config.data == c.current.carried + config.data[c.offset..];
    assert (config.transfers - (t + 1)) * |config.data| >= 0;
  }

  lemma SentKeepsInv(config: Config, c: Conn, count: nat)
    requires config.Valid() && ConnInv(config, c) && Enabled(c, SendDone(count))
    ensures ConnInv(config, Step(config, c, SendDone(count)))
  {
    var data := config.data;
    var chunk := Stretch(data, c.offset, count);
    var carried := c.current.carried + chunk;
    assert data[..c.offset] + chunk == data[..c.offset + count];
    assert carried == Repeat(data, c.ntransfers) + data[..c.offset + count];
    if count == c.length {
      assert data[..|data|] == data;
      assert carried == Repeat(data, c.ntransfers + 1);
      assert carried + data[..0] == carried;
    }
  }

  lemma StepKeepsInv(config: Config, c: Conn, e: Completion)
    requires config.Valid() && ConnInv(config, c) && Enabled(c, e)
    ensures ConnInv(config, Step(config, c, e))
  {
    match e
    case ConnectDone(_) => assert [] + config.data[..0] == [];
    case SendDone(count) => SentKeepsInv(config, c, count);
    case SendFails => SendingIsPartial(config, c);
    case DisconnectDone =>
  }

  // Termination.

  /** Completions one loop can take: its connect, its sends, and its disconnect. */
  function LoopLength(config: Config): nat {
    config.transfers * |config.data| + 2
  }

  function LoopsLeft(config: Config, c: Conn): nat {
    if c.nloops < config.loops then config.loops - c.nloops else 0
  }

  function BytesLeft(config: Config, c: Conn): nat {
    (if c.ntransfers < config.transfers then config.transfers - c.ntransfers - 1 else 0) * |config.data| + c.length
  }

  /** Loops left, phase, transfers left and bytes left, in one number. */
  function Rank(config: Config, c: Conn): nat {
    var rest := (if LoopsLeft(config, c) > 0 then LoopsLeft(config, c) - 1 else 0) * LoopLength(config);
    match c.phase
    case Connecting => rest + LoopLength(config)
    case Sending => rest + BytesLeft(config, c) + 1
    case Disconnecting => rest + 1
    case Finished => 0
    case Stuck => 0
  }

  lemma SendRank(config: Config, c: Conn, count: nat)
    requires config.Valid() && ConnInv(config, c) && Enabled(c, SendDone(count))
    ensures Rank(config, Step(config, c, SendDone(count))) + count == Rank(config, c)
  {
    var left := config.transfers - c.ntransfers - 1;
    if count == c.length && left > 0 {
      assert left * |config.data| == (left - 1) * |config.data| + |config.data|;
    }
  }

  lemma ConnectRank(config: Config, c: Conn)
    requires config.Valid() && ConnInv(config, c) && c.phase.Connecting?
    ensures Rank(config, Connected(config, c)) + 1 == Rank(config, c)
  {
    assert config.transfers * |config.data| == (config.transfers - 1) * |config.data| + |config.data|;
  }

  lemma DisconnectRank(config: Config, c: Conn)
    requires config.Valid() && ConnInv(config, c) && c.phase.Disconnecting?
    ensures Rank(config, Disconnected(config, c)) + 1 == Rank(config, c)
  {
    var left := LoopsLeft(config, c);
    if left > 1 {
      assert (left - 1) * LoopLength(config) == (left - 2) * LoopLength(config) + LoopLength(config);
    }
  }

  lemma FailureRank(config: Config, c: Conn)
    requires config.Valid() && ConnInv(config, c) && c.phase.Sending?
    ensures Rank(config, Step(config, c, SendFails)) < Rank(config, c)
  {
    assert Step(config, c, SendFails).phase.Disconnecting?;
    assert BytesLeft(config, c) >= c.length by {
      ProductIsNatural(if c.ntransfers < config.transfers then config.transfers - c.ntransfers - 1 else 0, |config.data|);
    }
  }

  lemma ProductIsNatural(m: nat, n: nat)
    ensures m * n >= 0
  {
  }

  lemma SendingNothing(config: Config, c: Conn)
    requires ConnInv(config, c) && c.phase.Sending?
    ensures Step(config, c, SendDone(0)) == c
  {
    assert c.current.carried + [] == c.current.carried;
  }

  /** A completion brings the end closer, unless it is a send of nothing, which changes nothing. */
  lemma RankDecreases(config: Config, c: Conn, e: Completion)
    requires config.Valid() && ConnInv(config, c) && Enabled(c, e)
    ensures Rank(config, Step(config, c, e)) < Rank(config, c) <==> e != SendDone(0)
    ensures e == SendDone(0) ==> Step(config, c, e) == c
  {
    match e
    case ConnectDone(_) => ConnectRank(config, c);
    case SendDone(count) => if count == 0 { SendingNothing(config, c); } else { SendRank(config, c, count); }
    case SendFails => FailureRank(config, c);
    case DisconnectDone => DisconnectRank(config, c);
  }

  // The fleet.

  function Unfinished(cs: seq<Conn>): nat {
    if cs == [] then 0 else Ind(!cs[0].phase.Finished?) + Unfinished(cs[1..])
  }

  function TotalRank(config: Config, cs: seq<Conn>): nat {
    if cs == [] then 0 else Rank(config, cs[0]) + TotalRank(config, cs[1..])
  }

  lemma {:induction false} SumsAfter(config: Config, cs: seq<Conn>, k: nat, c: Conn)
    requires k < |cs|
    ensures Unfinished(cs[k := c]) == Unfinished(cs) - Ind(!cs[k].phase.Finished?) + Ind(!c.phase.Finished?)
    ensures TotalRank(config, cs[k := c]) == TotalRank(config, cs) - Rank(config, cs[k]) + Rank(config, c)
  {
    if k == 0 {
      assert cs[k := c][1..] == cs[1..];
    } else {
      assert cs[k := c][1..] == cs[1..][k - 1 := c];
      SumsAfter(config, cs[1..], k - 1, c);
    }
  }

  lemma {:induction false} UnfinishedCounts(cs: seq<Conn>)
    ensures Unfinished(cs) <= |cs|
    ensures Unfinished(cs) == 0 <==> forall k :: 0 <= k < |cs| ==> cs[k].phase.Finished?
  {
    if cs != [] {
      UnfinishedCounts(cs[1..]);
      assert forall k :: 0 < k < |cs| ==> cs[k] == cs[1..][k - 1];
    }
  }

  predicate FleetInv(config: Config, f: Fleet) {
    && 0 < |f.conns|
    && (forall k :: 0 <= k < |f.conns| ==> ConnInv(config, f.conns[k]))
    && f.running as nat == Unfinished(f.conns)
    && f.signals == Ind(f.running == 0)
  }

  lemma FleetStepKeepsInv(config: Config, f: Fleet, e: Event)
    requires config.Valid() && FleetInv(config, f) && FleetEnabled(f, e)
    ensures FleetInv(config, FleetStep(config, f, e))
  {
    var c := Step(config, f.conns[e.k], e.completion);
    StepKeepsInv(config, f.conns[e.k], e.completion);
    SumsAfter(config, f.conns, e.k, c);
    UnfinishedCounts(f.conns);
  }

  lemma {:induction false} RunKeepsInv(config: Config, f: Fleet, es: seq<Event>)
    requires config.Valid() && FleetInv(config, f) && Possible(config, f, es)
    ensures FleetInv(config, Run(config, f, es))
    decreases |es|
  {
    if es != [] {
      FleetStepKeepsInv(config, f, es[0]);
      RunKeepsInv(config, FleetStep(config, f, es[0]), es[1..]);
    }
  }

  lemma {:induction false} NewConnections(config: Config, n: nat)
    requires config.Valid()
    ensures Unfinished(seq(n, _ => NEW)) == n
    ensures TotalRank(config, seq(n, _ => NEW)) == n * (config.loops * LoopLength(config))
  {
    if n > 0 {
      assert seq(n, _ => NEW)[1..] == seq(n - 1, _ => NEW);
      NewConnections(config, n - 1);
      assert config.loops * LoopLength(config) == (config.loops - 1) * LoopLength(config) + LoopLength(config);
      assert n * (config.loops * LoopLength(config))
          == (n - 1) * (config.loops * LoopLength(config)) + config.loops * LoopLength(config);
    }
  }

  lemma Fleets(config: Config, n: uint32, es: seq<Event>)
    requires config.Valid() && 0 < n && Possible(config, Initial(n), es)
    ensures FleetInv(config, Run(config, Initial(n), es))
  {
    NewConnections(config, n as nat);
    RunKeepsInv(config, Initial(n), es);
  }

  /**
   The stream: whatever the partial sends, every established connection that is over carried exactly
   the data, repeated as configured, if no send on it failed, and a proper prefix of it otherwise.
   */
  lemma SessionsCarryTheData(config: Config, n: uint32, es: seq<Event>, k: nat, i: nat)
    requires config.Valid() && 0 < n && Possible(config, Initial(n), es)
    requires k < |Run(config, Initial(n), es).conns|
    requires i < |Run(config, Initial(n), es).conns[k].sessions|
    ensures var s := Run(config, Initial(n), es).conns[k].sessions[i];
            var all := Repeat(config.data, config.transfers);
            && s.carried <= all
            && (s.carried == all <==> !s.failed)
  {
    Fleets(config, n, es);
    var c := Run(config, Initial(n), es).conns[k];
    assert ConnInv(config, c);
    assert Delivered(config, c.sessions[i]);
  }

  /** One disconnect for each successful connect, send errors included; one loop for each disconnect. */
  lemma OneDisconnectPerConnect(config: Config, n: uint32, es: seq<Event>, k: nat)
    requires config.Valid() && 0 < n && Possible(config, Initial(n), es)
    requires k < |Run(config, Initial(n), es).conns|
    ensures var c := Run(config, Initial(n), es).conns[k];
            && c.connects == c.disconnects + Ind(c.phase.Sending?)
            && c.disconnects == c.disconnected + Ind(c.phase.Disconnecting?)
            && (c.phase.Finished? <==> c.disconnected == config.loops)
            && c.disconnected <= config.loops
  {
    Fleets(config, n, es);
    assert ConnInv(config, Run(config, Initial(n), es).conns[k]);
  }

  /** The shared counter is the number of connections not finished; the last finisher alone signals. */
  lemma LastFinisherSignals(config: Config, n: uint32, es: seq<Event>)
    requires config.Valid() && 0 < n && Possible(config, Initial(n), es)
    ensures var f := Run(config, Initial(n), es);
            && f.running as nat == Unfinished(f.conns)
            && f.signals <= 1
            && (f.signals == 1 <==> forall k :: 0 <= k < |f.conns| ==> f.conns[k].phase.Finished?)
  {
    Fleets(config, n, es);
    UnfinishedCounts(Run(config, Initial(n), es).conns);
  }

  lemma {:induction false} RankBoundsRuns(config: Config, f: Fleet, es: seq<Event>)
    requires config.Valid() && FleetInv(config, f) && Possible(config, f, es) && Moving(es)
    ensures |es| + TotalRank(config, Run(config, f, es).conns) <= TotalRank(config, f.conns)
    decreases |es|
  {
    if es != [] {
      var e := es[0];
      var c := Step(config, f.conns[e.k], e.completion);
      assert ConnInv(config, f.conns[e.k]);
      RankDecreases(config, f.conns[e.k], e.completion);
      SumsAfter(config, f.conns, e.k, c);
      FleetStepKeepsInv(config, f, e);
      RankBoundsRuns(config, FleetStep(config, f, e), es[1..]);
    }
  }

  /**
   Termination: if every completed send moves at least a byte, a run of n connections has at most
   n * loops * (transfers * length + 2) completions.
   */
  lemma RunsAreBounded(config: Config, n: uint32, es: seq<Event>)
    requires config.Valid() && 0 < n && Possible(config, Initial(n), es) && Moving(es)
    ensures |es| <= n as nat * (config.loops * LoopLength(config))
  {
    NewConnections(config, n as nat);
    RankBoundsRuns(config, Initial(n), es);
  }

  /** And it stops early only where a connect failed: otherwise something can still complete. */
  lemma SomethingIsOutstanding(config: Config, n: uint32, es: seq<Event>) returns (e: Event)
    requires config.Valid() && 0 < n && Possible(config, Initial(n), es)
    requires Run(config, Initial(n), es).signals == 0 && AllConnected(es)
    ensures FleetEnabled(Run(config, Initial(n), es), e)
    ensures e.completion != SendDone(0)
  {
    Fleets(config, n, es);
    StuckAfterRun(config, Initial(n), es);
    var f := Run(config, Initial(n), es);
    UnfinishedCounts(f.conns);
    var k :| 0 <= k < |f.conns| && !f.conns[k].phase.Finished?;
    e := NextOf(config, f, k);
  }

  // Failed connects.

  predicate SomeStuck(cs: seq<Conn>) {
    exists k :: 0 <= k < |cs| && cs[k].phase.Stuck?
  }

  /** Every connect succeeded. */
  predicate AllConnected(es: seq<Event>) {
    forall i :: 0 <= i < |es| ==> es[i].completion != ConnectDone(false)
  }

  lemma FirstConnected(es: seq<Event>)
    requires es != []
    ensures AllConnected(es) <==> es[0].completion != ConnectDone(false) && AllConnected(es[1..])
  {
    if AllConnected(es[1..]) && es[0].completion != ConnectDone(false) {
      assert forall i :: 0 < i < |es| ==> es[i] == es[1..][i - 1];
    }
  }

  /** A step gets a connection stuck exactly when it is a failed connect; none gets loose again. */
  lemma StuckAfter(config: Config, f: Fleet, e: Event)
    requires FleetEnabled(f, e)
    ensures SomeStuck(FleetStep(config, f, e).conns) <==> SomeStuck(f.conns) || e.completion == ConnectDone(false)
  {
    var g := FleetStep(config, f, e);
    assert g.conns[e.k].phase.Stuck? <==> e.completion == ConnectDone(false);
    if SomeStuck(f.conns) {
      var k :| 0 <= k < |f.conns| && f.conns[k].phase.Stuck?;
      assert g.conns[k].phase.Stuck?;
    }
    if SomeStuck(g.conns) {
      var k :| 0 <= k < |g.conns| && g.conns[k].phase.Stuck?;
      assert k == e.k || f.conns[k].phase.Stuck?;
    }
  }

  lemma {:induction false} StuckAfterRun(config: Config, f: Fleet, es: seq<Event>)
    requires Possible(config, f, es)
    ensures SomeStuck(Run(config, f, es).conns) <==> SomeStuck(f.conns) || !AllConnected(es)
    decreases |es|
  {
    if es != [] {
      FirstConnected(es);
      StuckAfter(config, f, es[0]);
      StuckAfterRun(config, FleetStep(config, f, es[0]), es[1..]);
    }
  }

  /** Nothing left to complete. */
  predicate AtRest(f: Fleet) {
    forall k :: 0 <= k < |f.conns| ==> f.conns[k].phase.Finished? || f.conns[k].phase.Stuck?
  }

  /** A fleet is at rest exactly when no completion is possible. */
  lemma RestIsFinal(config: Config, n: uint32, es: seq<Event>)
    requires config.Valid() && 0 < n && Possible(config, Initial(n), es)
    ensures AtRest(Run(config, Initial(n), es)) <==> forall e :: !FleetEnabled(Run(config, Initial(n), es), e)
  {
    Fleets(config, n, es);
    var f := Run(config, Initial(n), es);
    if !AtRest(f) {
      var k :| 0 <= k < |f.conns| && !f.conns[k].phase.Finished? && !f.conns[k].phase.Stuck?;
      var e := NextOf(config, f, k);
    }
  }

  /** What an unfinished connection that is not stuck waits for. */
  lemma NextOf(config: Config, f: Fleet, k: nat) returns (e: Event)
    requires FleetInv(config, f) && k < |f.conns|
    requires !f.conns[k].phase.Finished? && !f.conns[k].phase.Stuck?
    ensures FleetEnabled(f, e) && e.k == k && e.completion != SendDone(0)
  {
    assert ConnInv(config, f.conns[k]);
    e := On(k, match f.conns[k].phase
               case Connecting => ConnectDone(true)
               case Sending => SendDone(1)
               case _ => DisconnectDone);
  }

  /**
   Exactly when the program ends: once nothing can complete any more, the stop event has been set, and
   then once, if and only if no connect failed. A failed connect has no handler.
   */
  lemma EndsExactlyWithoutFailedConnects(config: Config, n: uint32, es: seq<Event>)
    requires config.Valid() && 0 < n && Possible(config, Initial(n), es)
    requires AtRest(Run(config, Initial(n), es))
    ensures Run(config, Initial(n), es).signals == 1 <==> AllConnected(es)
    ensures Run(config, Initial(n), es).signals <= 1
  {
    LastFinisherSignals(config, n, es);
    StuckAfterRun(config, Initial(n), es);
  }

  /** From the first failed connect on the stop event is never set, however the run goes on. */
  lemma FailedConnectHangs(config: Config, n: uint32, es: seq<Event>)
    requires config.Valid() && 0 < n && Possible(config, Initial(n), es) && !AllConnected(es)
    ensures Run(config, Initial(n), es).signals == 0
  {
    LastFinisherSignals(config, n, es);
    StuckAfterRun(config, Initial(n), es);
  }

  /** The shortest such run: one connection, one completion, nothing left to wait for. */
  lemma OneFailedConnect(config: Config, es: seq<Event>)
    requires config.Valid() && es == [On(0, ConnectDone(false))]
    ensures Possible(config, Initial(1), es)
    ensures AtRest(Run(config, Initial(1), es)) && Run(config, Initial(1), es).signals == 0
  {
    var f := FleetStep(config, Initial(1), es[0]);
    assert es[1..] == [];
    assert Possible(config, f, []) && Run(config, f, []) == f;
  }

  // From the completions alone.

  /** The bytes the OS took on one established connection, and whether a send on it failed. */
  datatype Total = Total(taken: nat, failed: bool)

  /** What the completions of one connection add up to. */
  datatype Ledger = Ledger(current: Total, over: seq<Total>, connects: nat)

  const BLANK := Ledger(Total(0, false), [], 0)

  function Entered(l: Ledger, e: Completion): Ledger {
    match e
    case ConnectDone(connected) => if connected then l.(current := Total(0, false), connects := l.connects + 1) else l
    case SendDone(count) => l.(current := l.current.(taken := l.current.taken + count))
    case SendFails => l.(current := l.current.(failed := true))
    case DisconnectDone => l.(over := l.over + [l.current])
  }

  /** The ledger of connection k after these events. */
  function LedgerOf(l: Ledger, es: seq<Event>, k: nat): Ledger
    decreases |es|
  {
    if es == [] then l else LedgerOf(if es[0].k == k then Entered(l, es[0].completion) else l, es[1..], k)
  }

  predicate Books(s: Session, t: Total) {
    |s.carried| == t.taken && s.failed == t.failed
  }

  predicate Matches(c: Conn, l: Ledger) {
    && Books(c.current, l.current) && c.connects == l.connects
    && |c.sessions| == |l.over| && (forall i :: 0 <= i < |l.over| ==> Books(c.sessions[i], l.over[i]))
  }

  lemma StepMatches(config: Config, c: Conn, e: Completion, l: Ledger)
    requires ConnInv(config, c) && Enabled(c, e) && Matches(c, l)
    ensures Matches(Step(config, c, e), Entered(l, e))
  {
  }

  lemma {:induction false} RunMatches(config: Config, f: Fleet, es: seq<Event>, k: nat, l: Ledger)
    requires config.Valid() && FleetInv(config, f) && Possible(config, f, es)
    requires k < |f.conns| && Matches(f.conns[k], l)
    ensures k < |Run(config, f, es).conns| && Matches(Run(config, f, es).conns[k], LedgerOf(l, es, k))
    decreases |es|
  {
    if es != [] {
      assert ConnInv(config, f.conns[k]);
      if es[0].k == k {
        StepMatches(config, f.conns[k], es[0].completion, l);
      }
      FleetStepKeepsInv(config, f, es[0]);
      RunMatches(config, FleetStep(config, f, es[0]), es[1..], k, if es[0].k == k then Entered(l, es[0].completion) else l);
    }
  }

  /**
   Every connection's books agree with its completions: what each established connection carried is as long
   as the OS reported taken on it, it failed exactly if a send on it was reported failed, and the established
   connections over are exactly the disconnects completed. With SessionsCarryTheData that settles every byte.
   */
  lemma SessionsFollowTheCompletions(config: Config, n: uint32, es: seq<Event>, k: nat)
    requires config.Valid() && 0 < n && Possible(config, Initial(n), es) && k < n as nat
    ensures k < |Run(config, Initial(n), es).conns|
    ensures Matches(Run(config, Initial(n), es).conns[k], LedgerOf(BLANK, es, k))
  {
    NewConnections(config, n as nat);
    RunMatches(config, Initial(n), es, k, BLANK);
  }

  /** An established connection is sent everything the configured number of times, unless a send on it fails. */
  lemma EverythingIsTaken(config: Config, n: uint32, es: seq<Event>, k: nat, i: nat)
    requires config.Valid() && 0 < n && Possible(config, Initial(n), es) && k < n as nat
    requires i < |LedgerOf(BLANK, es, k).over|
    ensures var total := LedgerOf(BLANK, es, k).over[i];
            if total.failed then total.taken < config.transfers * |config.data|
            else total.taken == config.transfers * |config.data|
  {
    SessionsFollowTheCompletions(config, n, es, k);
    SessionsCarryTheData(config, n, es, k, i);
    RepeatIsLong(config.data, 0, config.transfers);
  }
}
