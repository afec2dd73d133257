/** The load generator's connections as objects that share a counter. */
module LoadGenerator {
  import opened Basics
  import S = LoadGeneratorSpec

  /** The word that all connections decrement, and the stop event. */
  class Counter {
    var running: uint32
    var signals: nat

    constructor ()
      ensures running == 0 && signals == 0
    {
      running, signals := 0, 0;
    }
  }

  class Connection {
    const config: S.Config
    const counter: Counter
    var phase: S.Phase
    var ntransfers: nat
    var nloops: nat
    var offset: nat
    var length: nat

    ghost var current: S.Session
    ghost var sessions: seq<S.Session>
    ghost var connects: nat
    ghost var disconnects: nat
    ghost var disconnected: nat

    /** Nothing is outstanding yet. */
    constructor (config: S.Config, counter: Counter)
      ensures this.config == config && this.counter == counter
      ensures State() == S.NEW.(phase := S.Stuck)
    {
      this.config, this.counter := config, counter;
      phase, ntransfers, nloops, offset, length := S.Stuck, 0, 0, 0, 0;
      current, sessions, connects, disconnects, disconnected := S.Session([], false), [], 0, 0, 0;
    }

    ghost function State(): S.Conn
      reads this
    {
      S.Conn(phase, ntransfers, nloops, offset, length, current, sessions, connects, disconnects, disconnected)
    }

    method Connect()
      modifies `phase
      ensures State() == old(State()).(phase := S.Connecting)
    {
      phase := S.Connecting;
    }

    method Connected()
      modifies this
      ensures State() == S.Connected(config, old(State()))
    {
      ntransfers := 0;
      connects, current := connects + 1, S.Session([], false);
      Send(0, |config.data|);
    }

    method Send(from: nat, len: nat)
      modifies `offset, `length, `phase
      ensures State() == S.Send(old(State()), from, len)
    {
      offset, length := from, len;
      phase := S.Sending;
    }

    method Sent(count: nat)
      requires count <= length
      modifies this
      ensures State() == S.Sent(config, old(State()), count)
    {
      current := current.(carried := current.carried + Stretch(config.data, offset, count));
      if count == length {
        ntransfers := ntransfers + 1;
        if ntransfers < config.transfers {
          Send(0, |config.data|);
        } else {
          Close();
        }
      } else {
        Send(offset + count, length - count);
      }
    }

    method Close()
      modifies `phase, `disconnects
      ensures State() == S.Close(old(State()))
    {
      disconnects := disconnects + 1;
      phase := S.Disconnecting;
    }

    /** The last loop gives up this connection's share of the counter; the last share signals. */
    method Disconnected()
      modifies this, counter
      ensures State() == S.Disconnected(config, old(State()))
      ensures if phase.Finished? then
                counter.running == Decrement(old(counter.running))
                && counter.signals == old(counter.signals) + Ind(counter.running == 0)
              else counter.running == old(counter.running) && counter.signals == old(counter.signals)
    {
      nloops := nloops + 1;
      disconnected, sessions := disconnected + 1, sessions + [current];
      if nloops < config.loops {
        Connect();
      } else {
        phase := S.Finished;
        counter.running := Decrement(counter.running);
        if counter.running == 0 {
          counter.signals := counter.signals + 1;
        }
      }
    }

    /** `complete`: a failed connect is dropped. */
    method Complete(e: S.Completion)
      requires S.Enabled(State(), e)
      modifies this, counter
      ensures State() == S.Step(config, old(State()), e)
      ensures if phase.Finished? then
                counter.running == Decrement(old(counter.running))
                && counter.signals == old(counter.signals) + Ind(counter.running == 0)
              else counter.running == old(counter.running) && counter.signals == old(counter.signals)
    {
      match e
      case ConnectDone(connected) =>
        if connected { Connected(); } else { phase := S.Stuck; }
      case SendDone(count) => Sent(count);
      case SendFails =>
        current := current.(failed := true);
        Close();
      case DisconnectDone => Disconnected();
    }
  }

  /** `connections::create`: all objects, then the counter, then all connects. */
  method Create(config: S.Config, n: uint32) returns (conns: seq<Connection>, counter: Counter)
    ensures fresh(counter) && counter.running == n && counter.signals == 0
    ensures |conns| == n as nat
    ensures Shared(config, conns, counter) && Fleet(conns, counter) == S.Initial(n)
    ensures forall i :: 0 <= i < |conns| ==> fresh(conns[i])
  {
    counter := new Counter();
    conns := [];
    while |conns| < n as nat
      invariant |conns| <= n as nat && fresh(counter) && counter.running == 0 && counter.signals == 0
      invariant forall i :: 0 <= i < |conns| ==> fresh(conns[i])
      invariant forall i, j :: 0 <= i < j < |conns| ==> conns[i] != conns[j]
      invariant forall i :: 0 <= i < |conns| ==>
                  && conns[i].config == config && conns[i].counter == counter
                  && conns[i].State() == S.NEW.(phase := S.Stuck)
    {
      var conn := new Connection(config, counter);
      conns := conns + [conn];
    }
    counter.running := n;
    for i := 0 to |conns|
      invariant counter.running == n && counter.signals == 0
      invariant forall k :: 0 <= k < |conns| ==>
                  conns[k].State() == if k < i then S.NEW else S.NEW.(phase := S.Stuck)
    {
      conns[i].Connect();
    }
  }

  /** The fleet the objects stand for. */
  ghost function Fleet(conns: seq<Connection>, counter: Counter): (f: S.Fleet)
    reads conns, counter
    ensures |f.conns| == |conns| && forall i :: 0 <= i < |conns| ==> f.conns[i] == conns[i].State()
  {
    S.Fleet(seq(|conns|, i requires 0 <= i < |conns| reads conns => conns[i].State()), counter.running, counter.signals)
  }

  /** Distinct connections of one configuration, all with the one counter. */
  predicate Shared(config: S.Config, conns: seq<Connection>, counter: Counter) {
    && (forall i :: 0 <= i < |conns| ==> conns[i].config == config && conns[i].counter == counter)
    && (forall i, j :: 0 <= i < j < |conns| ==> conns[i] != conns[j])
  }

  method Dispatch(config: S.Config, conns: seq<Connection>, counter: Counter, e: S.Event)
    requires Shared(config, conns, counter) && S.FleetEnabled(Fleet(conns, counter), e)
    modifies conns, counter
    ensures Fleet(conns, counter) == S.FleetStep(config, old(Fleet(conns, counter)), e)
  {
    var conn := conns[e.k];
    conn.Complete(e.completion);
    assert forall i :: 0 <= i < |conns| && i != e.k ==> conns[i] != conn && conns[i].State() == old(conns[i].State());
    assert Fleet(conns, counter).conns == S.FleetStep(config, old(Fleet(conns, counter)), e).conns;
  }

  /** All connections together, from any state and under any schedule of completions. */
  method Drive(config: S.Config, conns: seq<Connection>, counter: Counter, es: seq<S.Event>)
    requires Shared(config, conns, counter) && S.Possible(config, Fleet(conns, counter), es)
    modifies conns, counter
    ensures Fleet(conns, counter) == S.Run(config, old(Fleet(conns, counter)), es)
  {
    for i := 0 to |es|
      invariant S.Possible(config, Fleet(conns, counter), es[i..])
      invariant S.Run(config, Fleet(conns, counter), es[i..]) == S.Run(config, old(Fleet(conns, counter)), es)
    {
      assert es[i..][0] == es[i] && es[i..][1..] == es[i + 1..];
      Dispatch(config, conns, counter, es[i]);
    }
  }
}
