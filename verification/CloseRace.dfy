/**
 The close race of one proxy connection, at the granularity of single memory operations. Any number
 of threads run `close_connections` (the client half, then the server half), `close` of the server half
 alone, or `stop_timer`, which waits for the timer's callbacks; the callbacks run `close_connections`
 themselves, but do not stop the timer. `accepted` and `connected` set `open` at any moment, without the
 lock, and anybody may arm the timer.
 */
module CloseRace {
  import opened Basics
  import opened Counting
  import opened ProxySpec

  /** Where a thread stands inside `close` of one half. */
  datatype Stage =
    | Spinning      // about to compare-and-swap the mutex
    | Testing       // holds the lock, about to read `open`
    | Storing       // read true, about to write false
    | Releasing     // wrote false, about to decrement the mutex
    | Leaving       // read false, about to decrement the mutex
    | Disarming     // lock released, about to disarm the timer
    | Waiting       // waits for running callbacks of the timer
    | Cutting       // about to disconnect

  /** `callback`: the thread runs the timer's callback. `Stops` is `stop_timer` by itself. */
  datatype Thread = Idle | At(half: Side, stage: Stage, both: bool, callback: bool) | Stops(disarmed: bool)

  /** The close state of one half. `sets` counts the writes of true to `open`, `openings` those that found it false. */
  datatype Gate = Gate(open: bool, mutex: uint32, sets: nat, openings: nat, disconnects: nat)

  datatype State = State(server: Gate, client: Gate, armed: bool, threads: seq<Thread>)

  datatype Job = CloseBoth | CloseServer | StopTimer

  datatype Move = SetOpen(half: Side) | Arm | Call(thread: nat, job: Job) | Fire(thread: nat) | Go(thread: nat)

  function Of(s: State, half: Side): Gate {
    if half.Server? then s.server else s.client
  }

  function With(s: State, half: Side, h: Gate): State {
    if half.Server? then s.(server := h) else s.(client := h)
  }

  predicate Callback(t: Thread) {
    t.At? && t.callback
  }

  /** About to see whether all callbacks are done. */
  predicate Waits(t: Thread) {
    (t.At? && t.stage.Waiting?) || (t.Stops? && t.disarmed)
  }

  predicate Enabled(s: State, m: Move) {
    match m
    case SetOpen(_) => true
    case Arm => true
    case Call(t, _) => t < |s.threads| && s.threads[t].Idle?
    case Fire(t) => s.armed && t < |s.threads| && s.threads[t].Idle?
    case Go(t) =>
      t < |s.threads| && !s.threads[t].Idle? && (Waits(s.threads[t]) ==> Count(s.threads, Callback) == 0)
  }

  /** After one half: `close_connections` goes on to the server half, `close` returns. */
  function Next(t: Thread): Thread
    requires t.At?
  {
    if t.half.Client? && t.both then At(Server, Spinning, true, t.callback) else Idle
  }

  /** The server half stops the timer first, unless it is closed by the timer. */
  predicate StopsTimer(t: Thread)
    requires t.At?
  {
    t.half.Server? && !t.callback
  }

  /** One memory operation of the half's word and the thread's next place. */
  function Act(h: Gate, t: Thread): (Gate, Thread)
    requires t.At?
  {
    match t.stage
    case Spinning => if h.mutex == 0 then (h.(mutex := 1), t.(stage := Testing)) else (h, t)
    case Testing => (h, t.(stage := if h.open then Storing else Leaving))
    case Storing => (h.(open := false), t.(stage := Releasing))
    case Releasing => (h.(mutex := Decrement(h.mutex)), t.(stage := if StopsTimer(t) then Disarming else Cutting))
    case Leaving => (h.(mutex := Decrement(h.mutex)), Next(t))
    case Disarming => (h, t.(stage := Waiting))
    case Waiting => (h, t.(stage := Cutting))
    case Cutting => (h.(disconnects := h.disconnects + 1), Next(t))
  }

  function Begin(job: Job): Thread {
    match job
    case CloseBoth => At(Client, Spinning, true, false)
    case CloseServer => At(Server, Spinning, false, false)
    case StopTimer => Stops(false)
  }

  function Apply(s: State, m: Move): State
    requires Enabled(s, m)
  {
    match m
    case SetOpen(half) =>
      var h := Of(s, half);
      With(s, half, h.(open := true, sets := h.sets + 1, openings := h.openings + Ind(!h.open)))
    case Arm => s.(armed := true)
    case Call(t, job) => s.(threads := s.threads[t := Begin(job)])
    case Fire(t) => s.(armed := false, threads := s.threads[t := At(Client, Spinning, true, true)])
    case Go(t) => GoOn(s, t)
  }

  function GoOn(s: State, k: nat): State
    requires k < |s.threads| && !s.threads[k].Idle?
  {
    var t := s.threads[k];
    if t.Stops? then
      if t.disarmed then s.(threads := s.threads[k := Idle])
      else s.(armed := false, threads := s.threads[k := Stops(true)])
    else
      var (h, t') := Act(Of(s, t.half), t);
      var s' := With(s, t.half, h).(threads := s.threads[k := t']);
      if t.stage.Disarming? then s'.(armed := false) else s'
  }

  // The invariant.

  predicate Inside(t: Thread, half: Side) {
    t.At? && t.half == half && (t.stage.Testing? || t.stage.Storing? || t.stage.Releasing? || t.stage.Leaving?)
  }

  /** Has taken the half from open to closed, and not yet disconnected it. */
  predicate Owes(t: Thread, half: Side) {
    && t.At? && t.half == half
    && (t.stage.Releasing? || t.stage.Disarming? || t.stage.Waiting? || t.stage.Cutting?)
  }

  function InsideOf(half: Side): Thread -> bool {
    t => Inside(t, half)
  }

  function OwesOf(half: Side): Thread -> bool {
    t => Owes(t, half)
  }

  function Insiders(ts: seq<Thread>, half: Side): nat {
    Count(ts, InsideOf(half))
  }

  function Owing(ts: seq<Thread>, half: Side): nat {
    Count(ts, OwesOf(half))
  }

  predicate HalfInv(h: Gate, ts: seq<Thread>, half: Side) {
    && h.mutex as int == Insiders(ts, half) <= 1
    && (forall k :: 0 <= k < |ts| && Inside(ts[k], half) && ts[k].stage.Storing? ==> h.open)
    && h.disconnects + Owing(ts, half) + Ind(h.open) == h.openings <= h.sets
  }

  /** Only a thread that stops the timer waits for it. */
  predicate Fits(t: Thread) {
    t.At? && (t.stage.Disarming? || t.stage.Waiting?) ==> StopsTimer(t)
  }

  predicate Inv(s: State) {
    && HalfInv(s.server, s.threads, Server) && HalfInv(s.client, s.threads, Client)
    && (forall k :: 0 <= k < |s.threads| ==> Fits(s.threads[k]))
  }

  lemma CountsAfter(ts: seq<Thread>, k: nat, t: Thread, half: Side)
    requires k < |ts|
    ensures Insiders(ts[k := t], half) == Insiders(ts, half) - Ind(Inside(ts[k], half)) + Ind(Inside(t, half))
    ensures Owing(ts[k := t], half) == Owing(ts, half) - Ind(Owes(ts[k], half)) + Ind(Owes(t, half))
  {
    CountAfter(ts, k, t, InsideOf(half));
    CountAfter(ts, k, t, OwesOf(half));
  }

  lemma InsiderCounts(ts: seq<Thread>, k: nat, half: Side)
    requires k < |ts| && Inside(ts[k], half)
    ensures Insiders(ts, half) >= 1
    ensures Insiders(ts, half) <= 1 ==> forall j :: 0 <= j < |ts| && Inside(ts[j], half) ==> j == k
  {
    OneCounts(ts, k, InsideOf(half));
    if Insiders(ts, half) <= 1 {
      forall j | 0 <= j < |ts| && Inside(ts[j], half) ensures j == k {
        OnlyOne(ts, j, k, InsideOf(half));
      }
    }
  }

  /** A thread inside one half's lock is alone there, so its move sees the word nobody else changes. */
  lemma GoKeepsHalf(h: Gate, ts: seq<Thread>, k: nat, half: Side)
    requires HalfInv(h, ts, half) && k < |ts| && ts[k].At? && ts[k].half == half
    ensures var (h', t') := Act(h, ts[k]); HalfInv(h', ts[k := t'], half)
  {
    var (h', t') := Act(h, ts[k]);
    CountsAfter(ts, k, t', half);
    forall j | 0 <= j < |ts| && j != k && Inside(ts[j], half) && ts[j].stage.Storing?
      ensures h'.open
    {
      InsiderCounts(ts, j, half);
    }
    if Inside(ts[k], half) {
      InsiderCounts(ts, k, half);
    }
  }

  lemma GoLeavesOtherHalf(h: Gate, ts: seq<Thread>, k: nat, t: Thread, half: Side)
    requires HalfInv(h, ts, half) && k < |ts|
    requires !Inside(ts[k], half) && !Owes(ts[k], half) && !Inside(t, half) && !Owes(t, half)
    ensures HalfInv(h, ts[k := t], half)
  {
    CountsAfter(ts, k, t, half);
  }

  /** A thread that starts, or is about nothing of either half. */
  lemma ThreadKeepsInv(s: State, k: nat, t: Thread, armed: bool)
    requires Inv(s) && k < |s.threads| && Fits(t)
    requires forall half :: !Inside(s.threads[k], half) && !Owes(s.threads[k], half) && !Inside(t, half) && !Owes(t, half)
    ensures Inv(s.(threads := s.threads[k := t], armed := armed))
  {
    GoLeavesOtherHalf(s.server, s.threads, k, t, Server);
    GoLeavesOtherHalf(s.client, s.threads, k, t, Client);
  }

  /** An operation on one half concerns that half. */
  lemma ActStaysThere(h: Gate, t: Thread)
    requires t.At? && Fits(t)
    ensures var (_, t') := Act(h, t);
            Fits(t') && !Inside(t', Other(t.half)) && !Owes(t', Other(t.half))
  {
  }

  lemma ActKeepsInv(s: State, k: nat, h: Gate, t: Thread, armed: bool)
    requires Inv(s) && k < |s.threads| && s.threads[k].At? && (h, t) == Act(Of(s, s.threads[k].half), s.threads[k])
    ensures Inv(With(s, s.threads[k].half, h).(threads := s.threads[k := t], armed := armed))
  {
    var half := s.threads[k].half;
    ActStaysThere(Of(s, half), s.threads[k]);
    GoKeepsHalf(Of(s, half), s.threads, k, half);
    GoLeavesOtherHalf(Of(s, Other(half)), s.threads, k, t, Other(half));
  }

  lemma GoKeepsInv(s: State, k: nat)
    requires Inv(s) && Enabled(s, Go(k))
    ensures Inv(Apply(s, Go(k)))
  {
    var t := s.threads[k];
    if t.Stops? {
      ThreadKeepsInv(s, k, if t.disarmed then Idle else Stops(true), t.disarmed && s.armed);
    } else {
      var (h', t') := Act(Of(s, t.half), t);
      ActKeepsInv(s, k, h', t', s.armed && !t.stage.Disarming?);
    }
  }

  lemma MoveKeepsInv(s: State, m: Move)
    requires Inv(s) && Enabled(s, m)
    ensures Inv(Apply(s, m))
  {
    match m
    case SetOpen(half) =>
    case Arm =>
    case Call(t, job) => ThreadKeepsInv(s, t, Begin(job), s.armed);
    case Fire(t) => ThreadKeepsInv(s, t, At(Client, Spinning, true, true), false);
    case Go(t) => GoKeepsInv(s, t);
  }

  // Runs.

  function Initial(n: nat): State {
    var gate := Gate(false, 0, 0, 0, 0);
    State(gate, gate, false, seq(n, _ => Idle))
  }

  lemma InitialKeepsInv(n: nat)
    ensures Inv(Initial(n))
  {
    NobodyCounts(Initial(n).threads, InsideOf(Server));
    NobodyCounts(Initial(n).threads, InsideOf(Client));
    NobodyCounts(Initial(n).threads, OwesOf(Server));
    NobodyCounts(Initial(n).threads, OwesOf(Client));
  }

  ghost predicate Possible(s: State, ms: seq<Move>)
    decreases |ms|
  {
    ms == [] || (Enabled(s, ms[0]) && Possible(Apply(s, ms[0]), ms[1..]))
  }

  ghost function Run(s: State, ms: seq<Move>): State
    requires Possible(s, ms)
    decreases |ms|
  {
    if ms == [] then s else Run(Apply(s, ms[0]), ms[1..])
  }

  lemma {:induction false} RunKeepsInv(s: State, ms: seq<Move>)
    requires Inv(s) && Possible(s, ms)
    ensures Inv(Run(s, ms))
    decreases |ms|
  {
    if ms != [] {
      MoveKeepsInv(s, ms[0]);
      RunKeepsInv(Apply(s, ms[0]), ms[1..]);
    }
  }

  /** Any number of threads, any interleaving. */
  ghost predicate Reachable(s: State) {
    exists n, ms :: Possible(Initial(n), ms) && s == Run(Initial(n), ms)
  }

  lemma ReachableKeepsInv(s: State)
    requires Reachable(s)
    ensures Inv(s)
  {
    var n, ms :| Possible(Initial(n), ms) && s == Run(Initial(n), ms);
    InitialKeepsInv(n);
    RunKeepsInv(Initial(n), ms);
  }

  /** The lock word is the number of threads inside the critical section, and that is at most one. */
  lemma MutualExclusion(s: State, half: Side, i: nat, j: nat)
    requires Reachable(s)
    ensures Of(s, half).mutex as int == Insiders(s.threads, half) <= 1
    ensures i < |s.threads| && j < |s.threads| && Inside(s.threads[i], half) && Inside(s.threads[j], half) ==> i == j
  {
    ReachableKeepsInv(s);
    if i < |s.threads| && j < |s.threads| && Inside(s.threads[i], half) && Inside(s.threads[j], half) {
      InsiderCounts(s.threads, i, half);
    }
  }

  /**
   Once-only close. Every transition of `open` from false to true is answered by exactly one
   disconnect: issued, owed by exactly one thread past its store, or still to come while `open`.
   Setting `open` outside the lock can at worst merge into an opening already there.
   */
  lemma OneDisconnectPerOpening(s: State, half: Side)
    requires Reachable(s)
    ensures var h := Of(s, half);
            && h.disconnects + Owing(s.threads, half) + Ind(h.open) == h.openings
            && h.openings <= h.sets && h.disconnects <= h.sets
  {
    ReachableKeepsInv(s);
  }

  // Progress.

  /** Steps the holder of a lock needs to give it up. */
  function ToRelease(t: Thread): nat {
    if !t.At? then 0
    else match t.stage
      case Testing => 3
      case Storing => 2
      case Releasing => 1
      case Leaving => 1
      case _ => 0
  }

  /**
   No spinner waits for a lock nobody will free: a taken lock has a holder, each move of the
   holder brings it closer to releasing, at most three away, and no move of another thread or
   setter sets it back.
   */
  lemma HolderReleases(s: State, half: Side) returns (k: nat)
    requires Reachable(s) && Of(s, half).mutex != 0
    ensures k < |s.threads| && Inside(s.threads[k], half) && 1 <= ToRelease(s.threads[k]) <= 3 && Enabled(s, Go(k))
    ensures var s' := Apply(s, Go(k));
            if Inside(s'.threads[k], half) then ToRelease(s'.threads[k]) < ToRelease(s.threads[k])
            else Of(s', half).mutex == 0
    ensures forall m :: Enabled(s, m) && m != Go(k) ==> Apply(s, m).threads[k] == s.threads[k]
  {
    ReachableKeepsInv(s);
    k := SomeCounts(s.threads, InsideOf(half));
    forall m | Enabled(s, m) && m != Go(k) ensures Apply(s, m).threads[k] == s.threads[k] {
      OthersLeaveAlone(s, k, m);
    }
  }

  lemma OthersLeaveAlone(s: State, k: nat, m: Move)
    requires k < |s.threads| && !s.threads[k].Idle? && Enabled(s, m) && m != Go(k)
    ensures |Apply(s, m).threads| == |s.threads| && Apply(s, m).threads[k] == s.threads[k]
  {
  }

  /** At most how many operations a thread is from its end, spinning aside. */
  function Left(t: Thread): nat {
    match t
    case Idle => 0
    case Stops(disarmed) => if disarmed then 1 else 2
    case At(half, stage, both, _) =>
      (if half.Client? && both then 9 else 0)
      + match stage
        case Spinning => 8
        case Testing => 7
        case Storing => 6
        case Releasing => 5
        case Disarming => 4
        case Waiting => 3
        case Cutting => 2
        case Leaving => 1
  }

  predicate Spins(s: State, k: nat)
    requires k < |s.threads|
  {
    s.threads[k].At? && s.threads[k].stage.Spinning? && Of(s, s.threads[k].half).mutex != 0
  }

  /** Every operation of a thread brings it closer to its end, except a spin, which changes nothing. */
  lemma WorkDecreases(s: State, k: nat)
    requires Enabled(s, Go(k))
    ensures var u := Apply(s, Go(k));
            if Spins(s, k) then u == s
            else Left(u.threads[k]) < Left(s.threads[k])
                 && forall j :: 0 <= j < |s.threads| && j != k ==> u.threads[j] == s.threads[j]
  {
    if Spins(s, k) {
      assert s.threads[k := s.threads[k]] == s.threads;
    }
  }

  /** Stopping the timer disarms it, and ends only when none of its callbacks runs. */
  lemma StoppingStops(s: State, k: nat)
    requires Enabled(s, Go(k))
    ensures Waits(s.threads[k]) ==> forall j :: 0 <= j < |s.threads| ==> !Callback(s.threads[j])
    ensures s.threads[k] == Stops(false) ==> !Apply(s, Go(k)).armed && Waits(Apply(s, Go(k)).threads[k])
    ensures s.threads[k].At? && s.threads[k].stage.Disarming? ==>
              !Apply(s, Go(k)).armed && Waits(Apply(s, Go(k)).threads[k])
  {
    if Waits(s.threads[k]) {
      forall j | 0 <= j < |s.threads| ensures !Callback(s.threads[j]) {
        if Callback(s.threads[j]) { OneCounts(s.threads, j, Callback); }
      }
    }
  }

  /** A thread goes on, not in vain. */
  predicate Useful(s: State, k: nat) {
    Enabled(s, Go(k)) && !Spins(s, k)
  }

  lemma SpinnerGoesOn(s: State, half: Side) returns (j: nat)
    requires Inv(s) && Of(s, half).mutex != 0
    ensures Useful(s, j)
  {
    j := SomeCounts(s.threads, InsideOf(half));
  }

  /**
   No deadlock: as long as any thread has not ended, some thread goes on. A callback of the timer may spin
   for either lock, and a thread that stops the timer waits for the callback; but it does so after it has
   released the lock.
   */
  lemma NeverDeadlocks(s: State, k: nat) returns (j: nat)
    requires Reachable(s) && k < |s.threads| && !s.threads[k].Idle?
    ensures Useful(s, j)
  {
    ReachableKeepsInv(s);
    if Spins(s, k) {
      j := SpinnerGoesOn(s, s.threads[k].half);
    } else if Waits(s.threads[k]) && Count(s.threads, Callback) > 0 {
      j := SomeCounts(s.threads, Callback);
      assert Fits(s.threads[j]);
      if Spins(s, j) {
        j := SpinnerGoesOn(s, s.threads[j].half);
      }
    } else {
      j := k;
    }
  }

  // The handler-atomic view.

  /** A thread's next n operations on one half, nobody else's in between. */
  function Alone(h: Gate, t: Thread, n: nat): (Gate, Thread)
    decreases n
  {
    if n == 0 || !t.At? then (h, t)
    else
      var (h', t') := Act(h, t);
      Alone(h', t', n - 1)
  }

  /** Operations of one half's `close`: lock, test, unlock; if open also store, stop the timer and disconnect. */
  function Operations(h: Gate, t: Thread): nat
    requires t.At?
  {
    if !h.open then 3 else if StopsTimer(t) then 7 else 5
  }

  /** The disconnect, after the timer has been stopped where it is. */
  lemma CutAlone(h: Gate, t: Thread)
    requires t.At? && t.stage == if StopsTimer(t) then Disarming else Cutting
    ensures Alone(h, t, if StopsTimer(t) then 3 else 1) == (h.(disconnects := h.disconnects + 1), Next(t))
  {
    var h' := h.(disconnects := h.disconnects + 1);
    assert Alone(h, t.(stage := Cutting), 1) == Alone(h', Next(t), 0);
    if StopsTimer(t) {
      assert Alone(h, t.(stage := Waiting), 2) == Alone(h, t.(stage := Cutting), 1);
    }
  }

  /**
   Left alone, `close` of a half is what the handler-atomic model makes of it: closed, the lock free
   again, one disconnect if it was open and none if it was not.
   */
  lemma CloseAlone(h: Gate, t: Thread)
    requires h.mutex == 0 && t.At? && t.stage.Spinning?
    ensures Alone(h, t, Operations(h, t))
            == (h.(open := false, disconnects := h.disconnects + Ind(h.open)),
                if t.half.Client? && t.both then At(Server, Spinning, true, t.callback) else Idle)
  {
    var h1 := h.(mutex := 1);
    if h.open {
      var n := if StopsTimer(t) then 3 else 1;
      var h2 := h1.(open := false);
      var h3 := h2.(mutex := 0);
      CutAlone(h3, t.(stage := if StopsTimer(t) then Disarming else Cutting));
      assert Alone(h2, t.(stage := Releasing), n + 1)
          == Alone(h3, t.(stage := if StopsTimer(t) then Disarming else Cutting), n);
      assert Alone(h1, t.(stage := Storing), n + 2) == Alone(h2, t.(stage := Releasing), n + 1);
      assert Alone(h1, t.(stage := Testing), n + 3) == Alone(h1, t.(stage := Storing), n + 2);
    } else {
      assert Alone(h1, t.(stage := Leaving), 1) == Alone(h, Next(t), 0);
      assert Alone(h1, t.(stage := Testing), 2) == Alone(h1, t.(stage := Leaving), 1);
    }
  }

  // A whole close, uninterrupted.

  /** The next n operations of one thread, nobody else's in between. */
  function Solo(s: State, k: nat, n: nat): State
    decreases n
  {
    if n == 0 || !Enabled(s, Go(k)) then s else Solo(Apply(s, Go(k)), k, n - 1)
  }

  /** The state with one half's gate, one thread's place and the timer replaced. */
  function Place(s: State, k: nat, h: Gate, t: Thread, half: Side, armed: bool): State
    requires k < |s.threads|
  {
    With(s, half, h).(threads := s.threads[k := t], armed := armed)
  }

  lemma SoloStep(s: State, k: nat, h: Gate, t: Thread, armed: bool, n: nat)
    requires k < |s.threads| && t.At?
    requires t.stage.Waiting? ==> Count(s.threads[k := t], Callback) == 0
    ensures var (h', t') := Act(h, t);
            Solo(Place(s, k, h, t, t.half, armed), k, n + 1)
            == Solo(Place(s, k, h', t', t.half, armed && !t.stage.Disarming?), k, n)
  {
    var (h', t') := Act(h, t);
    assert s.threads[k := t][k := t'] == s.threads[k := t'];
    assert Apply(Place(s, k, h, t, t.half, armed), Go(k))
        == Place(s, k, h', t', t.half, armed && !t.stage.Disarming?);
  }

  /** Where `close` goes on after one half: to the server half or nowhere. */
  predicate GoesOnTo(t: Thread, after: Thread)
    requires t.At?
  {
    after == if t.half.Client? && t.both then At(Server, Spinning, true, t.callback) else Idle
  }

  /** The timer stopped. */
  lemma SoloStop(s: State, k: nat, h: Gate, t: Thread, armed: bool, n: nat)
    requires k < |s.threads| && t.At? && t.stage.Disarming?
    requires Count(s.threads[k := t.(stage := Waiting)], Callback) == 0
    ensures Solo(Place(s, k, h, t, t.half, armed), k, n + 2)
         == Solo(Place(s, k, h, t.(stage := Cutting), t.half, false), k, n)
  {
    SoloStep(s, k, h, t, armed, n + 1);
    SoloStep(s, k, h, t.(stage := Waiting), false, n);
  }

  lemma SoloDisconnect(s: State, k: nat, h: Gate, t: Thread, armed: bool, after: Thread, n: nat)
    requires k < |s.threads| && t.At? && t.stage.Cutting? && GoesOnTo(t, after)
    ensures Solo(Place(s, k, h, t, t.half, armed), k, n + 1)
         == Solo(Place(s, k, h.(disconnects := h.disconnects + 1), after, t.half, armed), k, n)
  {
    SoloStep(s, k, h, t, armed, n);
  }

  /** From the lock still held to the disconnect. */
  lemma SoloCut(s: State, k: nat, h: Gate, t: Thread, armed: bool, after: Thread, n: nat)
    requires k < |s.threads| && t.At? && t.stage.Releasing? && h.mutex == 1 && GoesOnTo(t, after)
    requires StopsTimer(t) ==> Count(s.threads[k := t.(stage := Waiting)], Callback) == 0
    ensures Solo(Place(s, k, h, t, t.half, armed), k, n + if StopsTimer(t) then 4 else 2)
            == Solo(Place(s, k, h.(mutex := 0, disconnects := h.disconnects + 1), after, t.half,
                          armed && !StopsTimer(t)), k, n)
  {
    if StopsTimer(t) {
      SoloStopAndCut(s, k, h, t, armed, after, n);
    } else {
      SoloStep(s, k, h, t, armed, n + 1);
      SoloDisconnect(s, k, h.(mutex := 0), t.(stage := Cutting), armed, after, n);
    }
  }

  lemma SoloStopAndCut(s: State, k: nat, h: Gate, t: Thread, armed: bool, after: Thread, n: nat)
    requires k < |s.threads| && t.At? && t.stage.Releasing? && h.mutex == 1 && GoesOnTo(t, after) && StopsTimer(t)
    requires Count(s.threads[k := t.(stage := Waiting)], Callback) == 0
    ensures Solo(Place(s, k, h, t, t.half, armed), k, n + 4)
            == Solo(Place(s, k, h.(mutex := 0, disconnects := h.disconnects + 1), after, t.half, false), k, n)
  {
    SoloStep(s, k, h, t, armed, n + 3);
    SoloUnlocked(s, k, h.(mutex := 0), t.(stage := Disarming), armed, after, n);
  }

  /** The timer stopped and the connection disconnected, outside the lock. */
  lemma SoloUnlocked(s: State, k: nat, h: Gate, t: Thread, armed: bool, after: Thread, n: nat)
    requires k < |s.threads| && t.At? && t.stage.Disarming? && GoesOnTo(t, after)
    requires Count(s.threads[k := t.(stage := Waiting)], Callback) == 0
    ensures Solo(Place(s, k, h, t, t.half, armed), k, n + 3)
         == Solo(Place(s, k, h.(disconnects := h.disconnects + 1), after, t.half, false), k, n)
  {
    SoloStop(s, k, h, t, armed, n + 1);
    SoloDisconnect(s, k, h, t.(stage := Cutting), false, after, n);
  }

  /** The lock taken and `open` read. */
  lemma SoloTest(s: State, k: nat, h: Gate, t: Thread, armed: bool, n: nat)
    requires k < |s.threads| && t.At? && t.stage.Spinning? && h.mutex == 0
    ensures Solo(Place(s, k, h, t, t.half, armed), k, n + 2)
         == Solo(Place(s, k, h.(mutex := 1), t.(stage := if h.open then Storing else Leaving), t.half, armed), k, n)
  {
    SoloStep(s, k, h, t, armed, n + 1);
    SoloStep(s, k, h.(mutex := 1), t.(stage := Testing), armed, n);
  }

  lemma SoloHalf(s: State, k: nat, h: Gate, t: Thread, armed: bool, after: Thread, n: nat)
    requires k < |s.threads| && t.At? && t.stage.Spinning? && h.mutex == 0 && GoesOnTo(t, after)
    requires StopsTimer(t) ==> Count(s.threads[k := t.(stage := Waiting)], Callback) == 0
    ensures Solo(Place(s, k, h, t, t.half, armed), k, n + Operations(h, t))
            == Solo(Place(s, k, Shut(h), after, t.half, armed && !(h.open && StopsTimer(t))), k, n)
  {
    if h.open {
      SoloOpen(s, k, h, t, armed, after, n);
    } else {
      SoloTest(s, k, h, t, armed, n + 1);
      SoloLeave(s, k, h.(mutex := 1), t.(stage := Leaving), armed, after, n);
    }
  }

  lemma SoloOpen(s: State, k: nat, h: Gate, t: Thread, armed: bool, after: Thread, n: nat)
    requires k < |s.threads| && t.At? && t.stage.Spinning? && h.mutex == 0 && h.open && GoesOnTo(t, after)
    requires StopsTimer(t) ==> Count(s.threads[k := t.(stage := Waiting)], Callback) == 0
    ensures Solo(Place(s, k, h, t, t.half, armed), k, n + if StopsTimer(t) then 7 else 5)
            == Solo(Place(s, k, Shut(h), after, t.half, armed && !StopsTimer(t)), k, n)
  {
    var m := if StopsTimer(t) then 5 else 3;
    SoloTest(s, k, h, t, armed, n + m);
    SoloShut(s, k, h.(mutex := 1), t.(stage := Storing), armed, after, n);
    assert Shut(h.(mutex := 1)).(mutex := 0) == Shut(h);
  }

  lemma SoloLeave(s: State, k: nat, h: Gate, t: Thread, armed: bool, after: Thread, n: nat)
    requires k < |s.threads| && t.At? && t.stage.Leaving? && h.mutex == 1 && GoesOnTo(t, after)
    ensures Solo(Place(s, k, h, t, t.half, armed), k, n + 1)
         == Solo(Place(s, k, h.(mutex := 0), after, t.half, armed), k, n)
  {
    SoloStep(s, k, h, t, armed, n);
  }

  lemma SoloShut(s: State, k: nat, h: Gate, t: Thread, armed: bool, after: Thread, n: nat)
    requires k < |s.threads| && t.At? && t.stage.Storing? && h.mutex == 1 && h.open && GoesOnTo(t, after)
    requires StopsTimer(t) ==> Count(s.threads[k := t.(stage := Waiting)], Callback) == 0
    ensures Solo(Place(s, k, h, t, t.half, armed), k, n + if StopsTimer(t) then 5 else 3)
            == Solo(Place(s, k, Shut(h).(mutex := 0), after, t.half, armed && !StopsTimer(t)), k, n)
  {
    SoloStep(s, k, h, t, armed, n + if StopsTimer(t) then 4 else 2);
    SoloCut(s, k, h.(open := false), t.(stage := Releasing), armed, after, n);
  }

  function Shut(h: Gate): Gate {
    h.(open := false, disconnects := h.disconnects + Ind(h.open))
  }

  /**
   `close_connections`, uninterrupted, from beginning to end: the thread is done, both halves are closed,
   both locks free again, each half disconnected once if it was open, and the timer stopped if the server half
   was open; unless the thread is the timer's own callback, which does not stop it. Nobody else is touched.
   */
  lemma CloseBothAlone(s: State, k: nat, callback: bool)
    requires k < |s.threads| && s.threads[k] == At(Client, Spinning, true, callback)
    requires s.server.mutex == 0 && s.client.mutex == 0
    requires !callback ==> Count(s.threads, Callback) == 0
    ensures var n := Operations(s.client, s.threads[k]) + Operations(s.server, At(Server, Spinning, true, callback));
            Solo(s, k, n) == s.(server := Shut(s.server), client := Shut(s.client),
                                armed := s.armed && (callback || !s.server.open), threads := s.threads[k := Idle])
  {
    var u := At(Server, Spinning, true, callback);
    var s' := s.(client := Shut(s.client), threads := s.threads[k := u]);
    ClientHalfAlone(s, k, s.threads[k], u, Operations(s.server, u));
    CountAfter(s.threads, k, u, Callback);
    ServerHalfAlone(s', k, u);
    assert s'.threads[k := Idle] == s.threads[k := Idle];
  }

  /** The client half from beginning to end, and what is to come after it. */
  lemma ClientHalfAlone(s: State, k: nat, t: Thread, after: Thread, n: nat)
    requires k < |s.threads| && s.threads[k] == t && t.At? && t.half.Client? && t.stage.Spinning?
    requires s.client.mutex == 0 && after == if t.both then At(Server, Spinning, true, t.callback) else Idle
    ensures Solo(s, k, n + Operations(s.client, t))
         == Solo(s.(client := Shut(s.client), threads := s.threads[k := after]), k, n)
  {
    PlaceItself(s, k, Client);
    SoloHalf(s, k, s.client, t, s.armed, after, n);
  }

  lemma PlaceItself(s: State, k: nat, half: Side)
    requires k < |s.threads|
    ensures Place(s, k, Of(s, half), s.threads[k], half, s.armed) == s
  {
    assert s.threads[k := s.threads[k]] == s.threads;
  }

  /** The server half from beginning to end. */
  lemma ServerHalfAlone(s: State, k: nat, t: Thread)
    requires k < |s.threads| && s.threads[k] == t && t.At? && t.half.Server? && t.stage.Spinning?
    requires s.server.mutex == 0
    requires !t.callback ==> Count(s.threads, Callback) == 0
    ensures Solo(s, k, Operations(s.server, t))
         == s.(server := Shut(s.server), armed := s.armed && (t.callback || !s.server.open),
               threads := s.threads[k := Idle])
  {
    PlaceItself(s, k, Server);
    CountAfter(s.threads, k, t.(stage := Waiting), Callback);
    SoloHalf(s, k, s.server, t, s.armed, Idle, 0);
  }

  /** `close` of the server half alone leaves the client half as it is. */
  lemma CloseServerAlone(s: State, k: nat)
    requires k < |s.threads| && s.threads[k] == At(Server, Spinning, false, false)
    requires s.server.mutex == 0 && Count(s.threads, Callback) == 0
    ensures Solo(s, k, Operations(s.server, s.threads[k]))
         == s.(server := Shut(s.server), armed := s.armed && !s.server.open, threads := s.threads[k := Idle])
  {
    ServerHalfAlone(s, k, s.threads[k]);
  }

  /** What the calls and the timer start. */
  lemma JobsBegin(s: State, k: nat)
    requires k < |s.threads| && s.threads[k].Idle?
    ensures Apply(s, Call(k, CloseBoth)) == s.(threads := s.threads[k := At(Client, Spinning, true, false)])
    ensures Apply(s, Call(k, CloseServer)) == s.(threads := s.threads[k := At(Server, Spinning, false, false)])
    ensures s.armed ==>
              Apply(s, Fire(k)) == s.(armed := false, threads := s.threads[k := At(Client, Spinning, true, true)])
  {
  }
}
