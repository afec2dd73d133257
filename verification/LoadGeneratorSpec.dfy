/**
 The load generator as a state machine: each connection connects, sends the data a number of times,
 disconnects, and starts over for a number of loops; a shared counter tells when all have finished.
 */
module LoadGeneratorSpec {
  import opened Basics

  /** What the command line may ask for. */
  datatype Config = Config(data: seq<byte>, transfers: nat, loops: nat) {
    predicate Valid() {
      1 <= |data| <= 64 * 1024 * 1024 && 1 <= transfers <= 1_000_000 && 1 <= loops <= 1_000_000
    }
  }

  /** Stuck: nothing outstanding, as before the first connect, or after a failed one, which has no handler. */
  datatype Phase = Connecting | Sending | Disconnecting | Finished | Stuck

  /** What one established connection carried, and whether a send on it failed. */
  datatype Session = Session(carried: seq<byte>, failed: bool)

  /**
   One connection; the view of the data still to send is (offset, length). History: the session going
   on, the sessions over, the successful connects, the disconnects issued and those completed.
   */
  datatype Conn = Conn(
    phase: Phase,
    ntransfers: nat,
    nloops: nat,
    offset: nat,
    length: nat,
    current: Session,
    sessions: seq<Session>,
    connects: nat,
    disconnects: nat,
    disconnected: nat)

  datatype Completion = ConnectDone(connected: bool) | SendDone(count: nat) | SendFails | DisconnectDone

  const NEW := Conn(Connecting, 0, 0, 0, 0, Session([], false), [], 0, 0, 0)

  function Send(c: Conn, offset: nat, length: nat): Conn {
    c.(phase := Sending, offset := offset, length := length)
  }

  function Connected(config: Config, c: Conn): Conn {
    Send(c.(ntransfers := 0, connects := c.connects + 1, current := Session([], false)), 0, |config.data|)
  }

  function Close(c: Conn): Conn {
    c.(phase := Disconnecting, disconnects := c.disconnects + 1)
  }

  function Sent(config: Config, c: Conn, count: nat): Conn
    requires count <= c.length
  {
    var c1 := c.(current := c.current.(carried := c.current.carried + Stretch(config.data, c.offset, count)));
    if count == c.length then
      var c2 := c1.(ntransfers := c1.ntransfers + 1);
      if c2.ntransfers < config.transfers then Send(c2, 0, |config.data|) else Close(c2)
    else Send(c1, c.offset + count, c.length - count)
  }

  function Disconnected(config: Config, c: Conn): Conn {
    var c1 := c.(nloops := c.nloops + 1, disconnected := c.disconnected + 1, sessions := c.sessions + [c.current]);
    c1.(phase := if c1.nloops < config.loops then Connecting else Finished)
  }

  predicate Enabled(c: Conn, e: Completion) {
    match e
    case ConnectDone(_) => c.phase.Connecting?
    case SendDone(count) => c.phase.Sending? && count <= c.length
    case SendFails => c.phase.Sending?
    case DisconnectDone => c.phase.Disconnecting?
  }

  function Step(config: Config, c: Conn, e: Completion): Conn
    requires Enabled(c, e)
  {
    match e
    case ConnectDone(connected) => if connected then Connected(config, c) else c.(phase := Stuck)
    case SendDone(count) => Sent(config, c, count)
    case SendFails => Close(c.(current := c.current.(failed := true)))
    case DisconnectDone => Disconnected(config, c)
  }

  // The fleet.

  /** All connections, the counter they share, and how often the stop event has been set. */
  datatype Fleet = Fleet(conns: seq<Conn>, running: uint32, signals: nat)

  datatype Event = On(k: nat, completion: Completion)

  predicate FleetEnabled(f: Fleet, e: Event) {
    e.k < |f.conns| && Enabled(f.conns[e.k], e.completion)
  }

  function FleetStep(config: Config, f: Fleet, e: Event): Fleet
    requires FleetEnabled(f, e)
  {
    var c := Step(config, f.conns[e.k], e.completion);
    var f' := f.(conns := f.conns[e.k := c]);
    if c.phase.Finished? then
      var running := Decrement(f.running);
      f'.(running := running, signals := f.signals + Ind(running == 0))
    else f'
  }

  ghost predicate Possible(config: Config, f: Fleet, es: seq<Event>)
    decreases |es|
  {
    es == [] || (FleetEnabled(f, es[0]) && Possible(config, FleetStep(config, f, es[0]), es[1..]))
  }

  ghost function Run(config: Config, f: Fleet, es: seq<Event>): Fleet
    requires Possible(config, f, es)
    decreases |es|
  {
    if es == [] then f else Run(config, FleetStep(config, f, es[0]), es[1..])
  }

  /** Every completed send moves at least one byte. */
  predicate Moving(es: seq<Event>) {
    forall i :: 0 <= i < |es| ==> (es[i].completion.SendDone? ==> es[i].completion.count > 0)
  }

  /** Every connection created, its first connect issued. */
  function Initial(n: uint32): Fleet {
    Fleet(seq(n as nat, _ => NEW), n, 0)
  }
}
