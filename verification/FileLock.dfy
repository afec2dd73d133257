/**
 The receiver's file lock at the granularity of single operations. One chain of handlers takes the
 lock in `write_file`, keeps it across the asynchronous write, and gives it up in `written` or
 `error_writing_file`; any number of `file_timer` callbacks only try it. Cancelling the timer, which
 the chain does while it holds the lock, waits for callbacks that are already running.
 */
module FileLock {
  import opened Basics
  import opened Counting

  /** Where the chain of handlers stands. */
  datatype Chain =
    | Idle
    | Spinning      // about to compare-and-swap the file mutex
    | Opening       // holds it; is the file open, and if not, can it be opened?
    | Arming        // opened the file, about to arm its timer
    | Issuing       // about to start the asynchronous write
    | Writing       // the write is outstanding, no thread of the chain is running
    | Deciding      // the write has completed; keep the file or close it?
    | Disarming     // about to disarm the timer
    | Waiting       // waits for running timer callbacks
    | Closing       // about to close the file
    | Moving        // about to move or delete it
    | Releasing     // about to decrement the mutex

  /** Where a timer callback stands. */
  datatype Callback = Trying | TimerClosing | TimerMoving | TimerReleasing | Done

  datatype State = State(mutex: uint32, open: bool, writing: bool, armed: bool, chain: Chain, callbacks: seq<Callback>)

  /** `choice` is the answer of CreateFile, or whether the file is too big, too old or unwritable. */
  datatype Move = Go(choice: bool) | Fire | Call(k: nat)

  predicate Enabled(s: State, m: Move) {
    match m
    case Go(_) => s.chain.Waiting? ==> Running(s.callbacks) == 0
    case Fire => s.armed
    case Call(k) => k < |s.callbacks| && !s.callbacks[k].Done?
  }

  function Apply(s: State, m: Move): State
    requires Enabled(s, m)
  {
    match m
    case Go(choice) => GoOn(s, choice)
    case Fire => s.(armed := false, callbacks := s.callbacks + [Trying])
    case Call(k) => CallBack(s, k)
  }

  function GoOn(s: State, choice: bool): State {
    match s.chain
    case Idle => s.(chain := Spinning)
    case Spinning => if s.mutex == 0 then s.(mutex := 1, chain := Opening) else s
    case Opening =>
      if s.open then s.(chain := Issuing)
      else if choice then s.(open := true, chain := Arming)
      else s.(chain := Releasing)
    case Arming => s.(armed := true, chain := Issuing)
    case Issuing => s.(writing := true, chain := Writing)
    case Writing => s.(writing := false, chain := Deciding)
    case Deciding => s.(chain := if choice then Disarming else Releasing)
    case Disarming => s.(armed := false, chain := Waiting)
    case Waiting => s.(chain := Closing)
    case Closing => s.(open := false, chain := Moving)
    case Moving => s.(chain := Releasing)
    case Releasing => s.(mutex := Decrement(s.mutex), chain := Idle)
  }

  function CallBack(s: State, k: nat): State
    requires k < |s.callbacks|
  {
    match s.callbacks[k]
    case Trying =>
      if s.mutex == 0 then s.(mutex := 1, callbacks := s.callbacks[k := TimerClosing])
      else s.(callbacks := s.callbacks[k := Done])
    case TimerClosing => s.(open := false, callbacks := s.callbacks[k := TimerMoving])
    case TimerMoving => s.(callbacks := s.callbacks[k := TimerReleasing])
    case TimerReleasing => s.(mutex := Decrement(s.mutex), callbacks := s.callbacks[k := Done])
    case Done => s
  }

  // Counting callbacks.

  predicate Holds(c: Callback) {
    c.TimerClosing? || c.TimerMoving? || c.TimerReleasing?
  }

  /** The callback's file is the open one, and it has not closed it. */
  predicate Fresh(c: Callback) {
    c.Trying? || c.TimerClosing?
  }

  predicate Runs(c: Callback) {
    !c.Done?
  }

  function Running(cs: seq<Callback>): nat {
    Count(cs, Runs)
  }

  function Holding(cs: seq<Callback>): nat {
    Count(cs, Holds)
  }

  function Freshly(cs: seq<Callback>): nat {
    Count(cs, Fresh)
  }

  lemma CountsAfter(cs: seq<Callback>, k: nat, c: Callback)
    requires k < |cs|
    ensures Running(cs[k := c]) == Running(cs) - Ind(!cs[k].Done?) + Ind(!c.Done?)
    ensures Holding(cs[k := c]) == Holding(cs) - Ind(Holds(cs[k])) + Ind(Holds(c))
    ensures Freshly(cs[k := c]) == Freshly(cs) - Ind(Fresh(cs[k])) + Ind(Fresh(c))
  {
    CountAfter(cs, k, c, Runs);
    CountAfter(cs, k, c, Holds);
    CountAfter(cs, k, c, Fresh);
  }

  lemma CountsGrow(cs: seq<Callback>, c: Callback)
    ensures Running(cs + [c]) == Running(cs) + Ind(!c.Done?)
    ensures Holding(cs + [c]) == Holding(cs) + Ind(Holds(c))
    ensures Freshly(cs + [c]) == Freshly(cs) + Ind(Fresh(c))
  {
    CountGrows(cs, c, Runs);
    CountGrows(cs, c, Holds);
    CountGrows(cs, c, Fresh);
  }

  lemma {:induction false} RunningCovers(cs: seq<Callback>)
    ensures Holding(cs) <= Running(cs) && Freshly(cs) <= Running(cs) <= Holding(cs) + Freshly(cs)
  {
    if cs != [] {
      RunningCovers(cs[1..]);
    }
  }

  lemma CallbackCounts(cs: seq<Callback>, k: nat)
    requires k < |cs|
    ensures Holding(cs) >= Ind(Holds(cs[k])) && Freshly(cs) >= Ind(Fresh(cs[k]))
  {
    if Holds(cs[k]) { OneCounts(cs, k, Holds); }
    if Fresh(cs[k]) { OneCounts(cs, k, Fresh); }
  }

  // The invariant.

  predicate ChainHolds(c: Chain) {
    !c.Idle? && !c.Spinning?
  }

  predicate UsesFile(c: Chain) {
    || c.Arming? || c.Issuing? || c.Writing? || c.Deciding? || c.Disarming? || c.Waiting? || c.Closing?
  }

  predicate Inv(s: State) {
    && s.mutex as int == Ind(ChainHolds(s.chain)) + Holding(s.callbacks) <= 1
    && (s.writing <==> s.chain.Writing?)
    && Ind(s.armed) + Freshly(s.callbacks) <= Ind(s.open)
    && (s.chain.Arming? ==> !s.armed && Freshly(s.callbacks) == 0)
    && (s.chain.Waiting? ==> !s.armed)
    && (s.chain.Closing? ==> !s.armed && Running(s.callbacks) == 0)
    && (UsesFile(s.chain) ==> s.open)
  }

  lemma CallKeepsInv(s: State, k: nat)
    requires Inv(s) && Enabled(s, Call(k))
    ensures Inv(Apply(s, Call(k)))
  {
    CallbackCounts(s.callbacks, k);
    CountsAfter(s.callbacks, k, CallBack(s, k).callbacks[k]);
  }

  lemma GoKeepsInv(s: State, choice: bool)
    requires Inv(s) && Enabled(s, Go(choice))
    ensures Inv(GoOn(s, choice))
  {
    RunningCovers(s.callbacks);
  }

  lemma FireKeepsInv(s: State)
    requires Inv(s) && s.armed
    ensures Inv(Apply(s, Fire))
  {
    CountsGrow(s.callbacks, Trying);
  }

  lemma MoveKeepsInv(s: State, m: Move)
    requires Inv(s) && Enabled(s, m)
    ensures Inv(Apply(s, m))
  {
    match m
    case Go(choice) => GoKeepsInv(s, choice);
    case Fire => FireKeepsInv(s);
    case Call(k) => CallKeepsInv(s, k);
  }

  // Runs.

  const INITIAL := State(0, false, false, false, Idle, [])

  ghost predicate Possible(s: State, ms: seq<Move>)
    decreases |ms|
  {
    ms == [] || (Enabled(s, ms[0]) && Possible(Apply(s, ms[0]), ms[1..]))
  }

  ghost function Run(s: State, ms: seq<Move>): State
    requires Possible(s, ms)
    decreases |ms|
  {
    if ms == [] then s else Run(Apply(s, ms[0]), ms[1..])
  }

  lemma {:induction false} RunKeepsInv(s: State, ms: seq<Move>)
    requires Inv(s) && Possible(s, ms)
    ensures Inv(Run(s, ms))
    decreases |ms|
  {
    if ms != [] {
      MoveKeepsInv(s, ms[0]);
      RunKeepsInv(Apply(s, ms[0]), ms[1..]);
    }
  }

  /** Any interleaving of the chain and any number of timer callbacks. */
  ghost predicate Reachable(s: State) {
    exists ms :: Possible(INITIAL, ms) && s == Run(INITIAL, ms)
  }

  lemma ReachableKeepsInv(s: State)
    requires Reachable(s)
    ensures Inv(s)
  {
    var ms :| Possible(INITIAL, ms) && s == Run(INITIAL, ms);
    RunKeepsInv(INITIAL, ms);
  }

  /**
   The lock word counts its holders, at most one. While a timer callback closes or moves the file, no
   write is outstanding and the chain is outside the lock; while the chain writes, closes or moves, no
   callback is inside.
   */
  lemma TimerNeverTouchesAWrite(s: State, k: nat)
    requires Reachable(s) && k < |s.callbacks|
    ensures s.mutex as int == Ind(ChainHolds(s.chain)) + Holding(s.callbacks) <= 1
    ensures Holds(s.callbacks[k]) ==> !s.writing && !ChainHolds(s.chain)
    ensures s.writing || s.chain.Closing? || s.chain.Moving? ==> Holding(s.callbacks) == 0
  {
    ReachableKeepsInv(s);
    CallbackCounts(s.callbacks, k);
  }

  /** Whenever a callback is about to try the lock, or has just taken it, the file is open. */
  lemma TryLockFindsAnOpenFile(s: State, k: nat)
    requires Reachable(s) && k < |s.callbacks| && Fresh(s.callbacks[k])
    ensures s.open && !s.armed
    ensures s.callbacks[k].Trying? && s.mutex == 0 ==> Apply(s, Call(k)).open && Apply(s, Call(k)).mutex == 1
  {
    ReachableKeepsInv(s);
    CallbackCounts(s.callbacks, k);
  }

  /**
   Waiting for the timer while holding the lock does not deadlock: no callback can start, every one
   still running finds the lock taken and is done after its one step, so their number strictly
   decreases; and once there is none the chain goes on.
   */
  lemma CancelNeverDeadlocks(s: State, k: nat)
    requires Reachable(s) && s.chain.Waiting?
    ensures !Enabled(s, Fire)
    ensures Enabled(s, Call(k)) ==>
              && Apply(s, Call(k)).callbacks[k].Done?
              && Running(Apply(s, Call(k)).callbacks) == Running(s.callbacks) - 1
              && Apply(s, Call(k)).chain.Waiting?
    ensures Running(s.callbacks) == 0 <==> Enabled(s, Go(true))
    ensures Running(s.callbacks) <= 1
  {
    ReachableKeepsInv(s);
    RunningCovers(s.callbacks);
    if k < |s.callbacks| {
      CallbackCounts(s.callbacks, k);
      CountsAfter(s.callbacks, k, Done);
    }
  }

  /** Steps a callback inside the lock needs to leave it. */
  function ToRelease(c: Callback): nat {
    match c
    case TimerClosing => 3
    case TimerMoving => 2
    case TimerReleasing => 1
    case _ => 0
  }

  /** A chain that spins waits for a callback at most three steps from releasing the lock. */
  lemma SpinningEnds(s: State) returns (k: nat)
    requires Reachable(s) && s.chain.Spinning? && s.mutex != 0
    ensures k < |s.callbacks| && 1 <= ToRelease(s.callbacks[k]) <= 3
    ensures var t := Apply(s, Call(k));
            ToRelease(t.callbacks[k]) == ToRelease(s.callbacks[k]) - 1
            && (ToRelease(t.callbacks[k]) == 0 ==> t.mutex == 0)
  {
    ReachableKeepsInv(s);
    k := SomeCounts(s.callbacks, Holds);
  }

  // Uninterrupted, against the handler-atomic view.

  /** The chain's next n operations with one answer, nobody else's in between. */
  function Solo(s: State, choice: bool, n: nat): State
    decreases n
  {
    if n == 0 || !Enabled(s, Go(choice)) then s else Solo(GoOn(s, choice), choice, n - 1)
  }

  lemma SoloStep(s: State, choice: bool, n: nat)
    requires Enabled(s, Go(choice))
    ensures Solo(s, choice, n + 1) == Solo(GoOn(s, choice), choice, n)
  {
  }

  /** `write_file` takes the lock and leaves a write outstanding, or gives the lock back if the file cannot be opened. */
  lemma WriteFileAlone(s: State, opens: bool)
    requires s.chain.Spinning? && s.mutex == 0
    ensures Solo(s, opens, if !s.open && opens then 4 else 3)
            == if s.open then s.(mutex := 1, writing := true, chain := Writing)
               else if opens then s.(mutex := 1, open := true, armed := true, writing := true, chain := Writing)
               else s.(chain := Idle)
  {
    var m := if !s.open && opens then 3 else 2;
    var t := s.(mutex := 1, chain := Opening);
    SoloStep(s, opens, m);
    SoloStep(t, opens, m - 1);
    if s.open {
      SoloStep(t.(chain := Issuing), opens, 0);
    } else if opens {
      SoloStep(t.(open := true, chain := Arming), opens, 1);
      SoloStep(t.(open := true, armed := true, chain := Issuing), opens, 0);
    } else {
      SoloStep(t.(chain := Releasing), opens, 0);
    }
  }

  /** The completion of the write gives the lock back, and closes the file first if it is to be closed. */
  lemma WrittenAlone(s: State, closes: bool)
    requires s.chain.Writing? && s.mutex == 1 && Running(s.callbacks) == 0
    ensures Solo(s, closes, if closes then 7 else 3)
            == if closes then s.(mutex := 0, writing := false, open := false, armed := false, chain := Idle)
               else s.(mutex := 0, writing := false, chain := Idle)
  {
    var t := s.(writing := false, chain := Deciding);
    SoloStep(s, closes, if closes then 6 else 2);
    SoloStep(t, closes, if closes then 5 else 1);
    if closes {
      ClosingAlone(t.(chain := Disarming));
    } else {
      SoloStep(t.(chain := Releasing), closes, 0);
    }
  }

  lemma ClosingAlone(s: State)
    requires s.chain.Disarming? && s.mutex == 1 && Running(s.callbacks) == 0
    ensures Solo(s, true, 5) == s.(mutex := 0, open := false, armed := false, chain := Idle)
  {
    SoloStep(s, true, 4);
    SoloStep(s.(armed := false, chain := Waiting), true, 3);
    ClosedAlone(s.(armed := false, chain := Closing));
  }

  lemma ClosedAlone(s: State)
    requires s.chain.Closing? && s.mutex == 1
    ensures Solo(s, true, 3) == s.(mutex := 0, open := false, chain := Idle)
  {
    SoloStep(s, true, 2);
    SoloStep(s.(open := false, chain := Moving), true, 1);
    SoloStep(s.(open := false, chain := Releasing), true, 0);
  }

  /** One callback's next n operations, nobody else's in between. */
  function CallbackSolo(s: State, k: nat, n: nat): State
    decreases n
  {
    if n == 0 || !Enabled(s, Call(k)) then s else CallbackSolo(Apply(s, Call(k)), k, n - 1)
  }

  /** `file_timer` leaves the file closed and the lock free; if the lock is taken it leaves everything alone. */
  lemma CallbackAlone(s: State, k: nat)
    requires k < |s.callbacks| && s.callbacks[k].Trying?
    ensures CallbackSolo(s, k, if s.mutex == 0 then 4 else 1)
            == if s.mutex == 0 then s.(open := false, callbacks := s.callbacks[k := Done])
               else s.(callbacks := s.callbacks[k := Done])
  {
    if s.mutex == 0 {
      var t := s.(mutex := 1, callbacks := s.callbacks[k := TimerClosing]);
      var u := t.(open := false, callbacks := t.callbacks[k := TimerMoving]);
      var v := u.(callbacks := u.callbacks[k := TimerReleasing]);
      var w := v.(mutex := 0, callbacks := v.callbacks[k := Done]);
      assert CallbackSolo(v, k, 1) == CallbackSolo(w, k, 0) == w;
      assert CallbackSolo(u, k, 2) == CallbackSolo(v, k, 1);
      assert CallbackSolo(t, k, 3) == CallbackSolo(u, k, 2);
      assert w.callbacks == s.callbacks[k := Done];
    } else {
      var t := s.(callbacks := s.callbacks[k := Done]);
      assert CallbackSolo(t, k, 0) == t;
    }
  }
}
