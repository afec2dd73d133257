/**
 The threads of one receiver connection, at the granularity of single operations: its two locks and two
 timers together. Any number of completion handlers and timer callbacks run at once, in any interleaving,
 whether or not the connection keeps to one operation at a time.
 */
module ReceiverThreads {
  import opened Basics
  import opened Counting

  /** A receive that succeeded, a write that completed, a receive that failed, and the two timers' callbacks. */
  datatype Role = Receiver | Writer | Closer | ConnectionTimer | FileTimer

  /** The operation a thread is about to do. */
  datatype Stage =
    | TryConnection     // compare-and-swap the connection mutex, or give up
    | Deciding          // has any data been received?
    | SpinFile          // compare-and-swap the file mutex, until it is free
    | Opening           // open the file, if need be
    | Issuing           // start the asynchronous write
    | GivingUp          // decrement the file mutex: the file could not be opened
    | DisarmConnection  // disarm the connection timer
    | WaitConnection    // wait for running callbacks of the connection timer
    | Disconnecting     // cancel the receive and disconnect
    | UnlockConnection  // decrement the connection mutex
    | Checking          // did the write fail? is the file too big or too old?
    | DisarmFile        // disarm the file timer
    | WaitFile          // wait for running callbacks of the file timer
    | ClosingFile       // close the file
    | MovingFile        // move or delete it
    | UnlockFile        // decrement the file mutex
    | Rearming          // arm the connection timer and receive again
    | TryFile           // compare-and-swap the file mutex, or give up
    | Done

  /** What opening a file or looking at a receive or a write finds. */
  datatype Finding = Fails | Stays | Changes

  /** What a thread has done to the connection and its file. */
  datatype Deed = Dropped | StartedWrite | ClosedFile | MovedFile | ReceivedAgain | Disconnected

  /** `found`: what the thread has found last. `deeds` is its history, in order. */
  datatype Thread = Thread(role: Role, stage: Stage, found: Finding, deeds: seq<Deed>)

  /**
   The two mutexes, the receives and writes outstanding, and the two timers; `dropped` counts the receives
   whose data nobody takes.
   */
  datatype State = State(
    connection: uint32,
    file: uint32,
    receiving: nat,
    writing: nat,
    dropped: nat,
    connectionArmed: bool,
    fileArmed: bool,
    threads: seq<Thread>)

  datatype Move =
    | AcceptDone
    | ReceiveDone
    | ReceiveFails
    | WriteDone
    | ConnectionFires
    | FileFires
    | Go(thread: nat, finding: Finding)

  // One step.

  predicate ConnectionCallback(t: Thread) {
    t.role.ConnectionTimer? && !t.stage.Done?
  }

  predicate FileCallback(t: Thread) {
    t.role.FileTimer? && !t.stage.Done?
  }

  /** Waiting for a timer ends when none of its callbacks runs. */
  predicate Enabled(s: State, m: Move) {
    match m
    case AcceptDone => true
    case ReceiveDone => s.receiving > 0
    case ReceiveFails => s.receiving > 0
    case WriteDone => s.writing > 0
    case ConnectionFires => s.connectionArmed
    case FileFires => s.fileArmed
    case Go(k, _) =>
      && k < |s.threads| && !s.threads[k].stage.Done?
      && (s.threads[k].stage.WaitConnection? ==> Count(s.threads, ConnectionCallback) == 0)
      && (s.threads[k].stage.WaitFile? ==> Count(s.threads, FileCallback) == 0)
  }

  function Start(s: State, role: Role, stage: Stage): State {
    s.(threads := s.threads + [Thread(role, stage, Stays, [])])
  }

  /** `receive`: the connection timer armed, a receive outstanding. */
  function Receive(s: State): State {
    s.(connectionArmed := true, receiving := s.receiving + 1)
  }

  function Apply(s: State, m: Move): State
    requires Enabled(s, m)
  {
    match m
    case AcceptDone => Receive(s)
    case ReceiveDone => Start(s.(receiving := s.receiving - 1), Receiver, TryConnection)
    case ReceiveFails => Start(s.(receiving := s.receiving - 1), Closer, DisarmConnection)
    case WriteDone => Start(s.(writing := s.writing - 1), Writer, Checking)
    case ConnectionFires => Start(s.(connectionArmed := false), ConnectionTimer, TryConnection)
    case FileFires => Start(s.(fileArmed := false), FileTimer, TryFile)
    case Go(k, finding) =>
      var t := s.threads[k];
      Effect(s, t, finding).(threads := s.threads[k := Next(s, t, finding)])
  }

  /** What a thread does to the shared words. */
  function Effect(s: State, t: Thread, finding: Finding): State {
    match t.stage
    case TryConnection =>
      if s.connection == 0 then s.(connection := 1) else s.(dropped := s.dropped + Ind(t.role.Receiver?))
    case SpinFile => if s.file == 0 then s.(file := 1) else s
    case TryFile => if s.file == 0 then s.(file := 1) else s
    case Opening => if finding.Changes? then s.(fileArmed := true) else s
    case Issuing => s.(writing := s.writing + 1)
    case GivingUp => s.(file := Decrement(s.file))
    case UnlockFile => s.(file := Decrement(s.file))
    case DisarmConnection => s.(connectionArmed := false)
    case DisarmFile => s.(fileArmed := false)
    case UnlockConnection => s.(connection := Decrement(s.connection))
    case Rearming => Receive(s)
    case _ => s
  }

  /** Where it goes on. */
  function Next(s: State, t: Thread, finding: Finding): Thread {
    match t.stage
    case TryConnection =>
      if s.connection == 0 then t.(stage := if t.role.Receiver? then Deciding else Disconnecting)
      else if t.role.Receiver? then Did(t, Done, Dropped)
      else t.(stage := Done)
    case Deciding =>
      if finding.Stays? then t.(stage := SpinFile, found := Stays) else t.(stage := DisarmConnection, found := Fails)
    case SpinFile => t.(stage := if s.file == 0 then Opening else SpinFile)
    case Opening => t.(stage := if finding.Fails? then GivingUp else Issuing, found := finding)
    case Issuing => Did(t, UnlockConnection, StartedWrite)
    case GivingUp => t.(stage := DisarmConnection)
    case DisarmConnection => t.(stage := WaitConnection)
    case WaitConnection => t.(stage := Disconnecting)
    case Disconnecting =>
      Did(t, if t.role.Receiver? || t.role.ConnectionTimer? then UnlockConnection else Done, Disconnected)
    case UnlockConnection => t.(stage := Done)
    case Checking => t.(stage := if finding.Stays? then UnlockFile else DisarmFile, found := finding)
    case DisarmFile => t.(stage := WaitFile)
    case WaitFile => t.(stage := ClosingFile)
    case ClosingFile => Did(t, MovingFile, ClosedFile)
    case MovingFile => Did(t, UnlockFile, MovedFile)
    case UnlockFile =>
      t.(stage := if t.role.FileTimer? then Done else if t.found.Fails? then DisarmConnection else Rearming)
    case Rearming => Did(t, Done, ReceivedAgain)
    case TryFile => t.(stage := if s.file == 0 then ClosingFile else Done)
    case Done => t
  }

  function Did(t: Thread, stage: Stage, deed: Deed): Thread {
    t.(stage := stage, deeds := t.deeds + [deed])
  }

  // The invariant.

  predicate InConnection(t: Thread) {
    match t.stage
    case Deciding => true
    case SpinFile => true
    case Opening => true
    case Issuing => true
    case GivingUp => true
    case DisarmConnection => t.role.Receiver?
    case WaitConnection => t.role.Receiver?
    case Disconnecting => t.role.Receiver? || t.role.ConnectionTimer?
    case UnlockConnection => true
    case _ => false
  }

  predicate InFile(t: Thread) {
    match t.stage
    case Opening => true
    case Issuing => true
    case GivingUp => true
    case Checking => true
    case DisarmFile => true
    case WaitFile => true
    case ClosingFile => true
    case MovingFile => true
    case UnlockFile => true
    case _ => false
  }

  /** The places each role can be in. */
  predicate Fits(t: Thread) {
    match t.role
    case Receiver =>
      || t.stage.TryConnection? || t.stage.Deciding? || t.stage.SpinFile? || t.stage.Opening? || t.stage.Issuing?
      || t.stage.GivingUp? || t.stage.DisarmConnection? || t.stage.WaitConnection? || t.stage.Disconnecting?
      || t.stage.UnlockConnection? || t.stage.Done?
    case Writer =>
      || t.stage.Checking? || t.stage.DisarmFile? || t.stage.WaitFile? || t.stage.ClosingFile?
      || t.stage.MovingFile? || t.stage.UnlockFile? || t.stage.Rearming? || t.stage.DisarmConnection?
      || t.stage.WaitConnection? || t.stage.Disconnecting? || t.stage.Done?
    case Closer =>
      t.stage.DisarmConnection? || t.stage.WaitConnection? || t.stage.Disconnecting? || t.stage.Done?
    case ConnectionTimer =>
      t.stage.TryConnection? || t.stage.Disconnecting? || t.stage.UnlockConnection? || t.stage.Done?
    case FileTimer =>
      t.stage.TryFile? || t.stage.ClosingFile? || t.stage.MovingFile? || t.stage.UnlockFile? || t.stage.Done?
  }

  predicate Inv(s: State) {
    && s.connection as int == Count(s.threads, InConnection) <= 1
    && s.file as int == Count(s.threads, InFile) + s.writing <= 1
    && (forall k :: 0 <= k < |s.threads| ==> Fits(s.threads[k]))
  }

  lemma StartKeepsInv(s: State, t: Thread, u: State)
    requires Inv(s) && Fits(t) && !InConnection(t)
    requires u.threads == s.threads + [t] && u.connection == s.connection && u.file == s.file
    requires u.writing + Ind(InFile(t)) == s.writing
    ensures Inv(u)
  {
    CountGrows(s.threads, t, InConnection);
    CountGrows(s.threads, t, InFile);
  }

  lemma NextFits(s: State, t: Thread, finding: Finding)
    requires Fits(t)
    ensures Fits(Next(s, t, finding))
  {
  }

  /** A thread's step changes the words by what it changes of its own place. */
  lemma ConnectionWord(s: State, t: Thread, finding: Finding)
    requires Fits(t) && s.connection <= 1 && (InConnection(t) ==> s.connection == 1)
    ensures Effect(s, t, finding).connection as int
            == s.connection as int - Ind(InConnection(t)) + Ind(InConnection(Next(s, t, finding))) <= 1
  {
  }

  lemma FileWord(s: State, t: Thread, finding: Finding)
    requires Fits(t) && s.file <= 1 && (InFile(t) ==> s.file == 1)
    ensures var u := Effect(s, t, finding);
            u.file as int + s.writing + Ind(InFile(t))
            == s.file as int + u.writing + Ind(InFile(Next(s, t, finding))) && u.file <= 1
  {
  }

  lemma GoKeepsInv(s: State, k: nat, finding: Finding)
    requires Inv(s) && Enabled(s, Go(k, finding))
    ensures Inv(Apply(s, Go(k, finding)))
  {
    var t, t' := s.threads[k], Next(s, s.threads[k], finding);
    if InConnection(t) { OneCounts(s.threads, k, InConnection); }
    if InFile(t) { OneCounts(s.threads, k, InFile); }
    NextFits(s, t, finding);
    ConnectionWord(s, t, finding);
    FileWord(s, t, finding);
    CountAfter(s.threads, k, t', InConnection);
    CountAfter(s.threads, k, t', InFile);
  }

  lemma MoveKeepsInv(s: State, m: Move)
    requires Inv(s) && Enabled(s, m)
    ensures Inv(Apply(s, m))
  {
    match m
    case AcceptDone =>
    case ReceiveDone => StartKeepsInv(s, Thread(Receiver, TryConnection, Stays, []), Apply(s, m));
    case ReceiveFails => StartKeepsInv(s, Thread(Closer, DisarmConnection, Stays, []), Apply(s, m));
    case WriteDone => StartKeepsInv(s, Thread(Writer, Checking, Stays, []), Apply(s, m));
    case ConnectionFires => StartKeepsInv(s, Thread(ConnectionTimer, TryConnection, Stays, []), Apply(s, m));
    case FileFires => StartKeepsInv(s, Thread(FileTimer, TryFile, Stays, []), Apply(s, m));
    case Go(k, finding) => GoKeepsInv(s, k, finding);
  }

  // Runs.

  const INITIAL := State(0, 0, 0, 0, 0, false, false, [])

  ghost predicate Possible(s: State, ms: seq<Move>)
    decreases |ms|
  {
    ms == [] || (Enabled(s, ms[0]) && Possible(Apply(s, ms[0]), ms[1..]))
  }

  ghost function Run(s: State, ms: seq<Move>): State
    requires Possible(s, ms)
    decreases |ms|
  {
    if ms == [] then s else Run(Apply(s, ms[0]), ms[1..])
  }

  lemma {:induction false} RunKeepsInv(s: State, ms: seq<Move>)
    requires Inv(s) && Possible(s, ms)
    ensures Inv(Run(s, ms))
    decreases |ms|
  {
    if ms != [] {
      MoveKeepsInv(s, ms[0]);
      RunKeepsInv(Apply(s, ms[0]), ms[1..]);
    }
  }

  ghost predicate Reachable(s: State) {
    exists ms :: Possible(INITIAL, ms) && s == Run(INITIAL, ms)
  }

  lemma ReachableKeepsInv(s: State)
    requires Reachable(s)
    ensures Inv(s)
  {
    var ms :| Possible(INITIAL, ms) && s == Run(INITIAL, ms);
    RunKeepsInv(INITIAL, ms);
  }

  /**
   Both lock words count their holders, a write outstanding being one, and there is never more than one:
   two threads inside the same lock are the same thread, and none is inside the file lock beside a write.
   */
  lemma LocksExclude(s: State, i: nat, j: nat)
    requires Reachable(s) && i < |s.threads| && j < |s.threads|
    ensures InConnection(s.threads[i]) && InConnection(s.threads[j]) ==> i == j && s.connection == 1
    ensures InFile(s.threads[i]) && InFile(s.threads[j]) ==> i == j && s.file == 1 && s.writing == 0
    ensures s.writing <= 1
  {
    ReachableKeepsInv(s);
    if InConnection(s.threads[i]) && InConnection(s.threads[j]) {
      OnlyOne(s.threads, i, j, InConnection);
      OneCounts(s.threads, i, InConnection);
    }
    if InFile(s.threads[i]) && InFile(s.threads[j]) {
      OnlyOne(s.threads, i, j, InFile);
      OneCounts(s.threads, i, InFile);
    }
  }

  // What every thread does.

  /** The deeds that go with a role, a place and a finding, in their order. */
  function Record(t: Thread): seq<Deed> {
    match t.role
    case Receiver =>
      if t.stage.UnlockConnection? || t.stage.Done? then [if t.found.Fails? then Disconnected else StartedWrite]
      else []
    case Writer =>
      if t.stage.Checking? || t.stage.DisarmFile? || t.stage.WaitFile? || t.stage.ClosingFile? then []
      else if t.stage.MovingFile? then [ClosedFile]
      else
        (if t.found.Stays? then [] else [ClosedFile, MovedFile])
        + (if !t.stage.Done? then [] else if t.found.Fails? then [Disconnected] else [ReceivedAgain])
    case Closer => if t.stage.Done? then [Disconnected] else []
    case ConnectionTimer => if t.stage.UnlockConnection? || t.stage.Done? then [Disconnected] else []
    case FileTimer =>
      if t.stage.MovingFile? then [ClosedFile]
      else if t.stage.UnlockFile? || t.stage.Done? then [ClosedFile, MovedFile]
      else []
  }

  /** A thread that gave up at its first try: the data of a receive is dropped, a timer's callback does nothing. */
  predicate GaveUp(t: Thread) {
    && t.stage.Done?
    && ((t.role.Receiver? && t.deeds == [Dropped])
        || ((t.role.ConnectionTimer? || t.role.FileTimer?) && t.deeds == []))
  }

  /** Inside `close_connection`. */
  predicate Leaves(stage: Stage) {
    stage.DisarmConnection? || stage.WaitConnection? || stage.Disconnecting?
  }

  /** Where what was found leads. */
  predicate Fitting(t: Thread) {
    match t.role
    case Receiver =>
      && (t.stage.GivingUp? || Leaves(t.stage) ==> t.found.Fails?)
      && (t.stage.Issuing? ==> !t.found.Fails?)
    case Writer =>
      && (Leaves(t.stage) ==> t.found.Fails?)
      && (t.stage.Rearming? ==> !t.found.Fails?)
      && (t.stage.DisarmFile? || t.stage.WaitFile? || t.stage.ClosingFile? || t.stage.MovingFile? ==> !t.found.Stays?)
    case _ => true
  }

  predicate Recorded(t: Thread) {
    (GaveUp(t) || t.deeds == Record(t)) && Fitting(t)
  }

  lemma NextRecords(s: State, t: Thread, finding: Finding)
    requires Fits(t) && !t.stage.Done? && Recorded(t)
    ensures Recorded(Next(s, t, finding))
  {
    assert !GaveUp(t);
    assert [ClosedFile] + [MovedFile] == [ClosedFile, MovedFile];
  }

  ghost predicate AllRecorded(s: State) {
    forall k :: 0 <= k < |s.threads| ==> Recorded(s.threads[k])
  }

  lemma MoveRecords(s: State, m: Move)
    requires Inv(s) && AllRecorded(s) && Enabled(s, m)
    ensures AllRecorded(Apply(s, m))
  {
    if m.Go? {
      NextRecords(s, s.threads[m.thread], m.finding);
    }
  }

  lemma {:induction false} RunRecords(s: State, ms: seq<Move>)
    requires Inv(s) && AllRecorded(s) && Possible(s, ms)
    ensures AllRecorded(Run(s, ms))
    decreases |ms|
  {
    if ms != [] {
      MoveRecords(s, ms[0]);
      MoveKeepsInv(s, ms[0]);
      RunRecords(Apply(s, ms[0]), ms[1..]);
    }
  }

  /**
   What every thread has done by its end, under any interleaving. A receive starts a write, or disconnects if
   it brought nothing or the file could not be opened, or is dropped. A write receives again, closing and
   moving the file first if need be; a failed one closes and moves the file and disconnects. A failed receive
   disconnects. A timer's callback disconnects, or closes and moves the file, or does nothing.
   */
  lemma EveryThreadDoesItsWork(s: State, k: nat)
    requires Reachable(s) && k < |s.threads| && s.threads[k].stage.Done?
    ensures var t := s.threads[k];
            match t.role
            case Receiver => t.deeds == [Dropped] || t.deeds == [if t.found.Fails? then Disconnected else StartedWrite]
            case Writer =>
              (match t.found
               case Fails => t.deeds == [ClosedFile, MovedFile, Disconnected]
               case Stays => t.deeds == [ReceivedAgain]
               case Changes => t.deeds == [ClosedFile, MovedFile, ReceivedAgain])
            case Closer => t.deeds == [Disconnected]
            case ConnectionTimer => t.deeds == [] || t.deeds == [Disconnected]
            case FileTimer => t.deeds == [] || t.deeds == [ClosedFile, MovedFile]
  {
    var ms :| Possible(INITIAL, ms) && s == Run(INITIAL, ms);
    RunRecords(INITIAL, ms);
    assert Recorded(s.threads[k]);
    assert [ClosedFile, MovedFile] + [Disconnected] == [ClosedFile, MovedFile, Disconnected];
    assert [ClosedFile, MovedFile] + [ReceivedAgain] == [ClosedFile, MovedFile, ReceivedAgain];
  }

  /** Stopping a timer disarms it, and ends only when none of its callbacks runs; receiving again arms it. */
  lemma StoppingStops(s: State, k: nat, finding: Finding)
    requires Enabled(s, Go(k, finding))
    ensures var u, t := Apply(s, Go(k, finding)), s.threads[k];
            && (t.stage.DisarmConnection? ==> !u.connectionArmed && u.threads[k].stage.WaitConnection?)
            && (t.stage.DisarmFile? ==> !u.fileArmed && u.threads[k].stage.WaitFile?)
            && (t.stage.WaitConnection? ==> forall j :: 0 <= j < |s.threads| ==> !ConnectionCallback(s.threads[j]))
            && (t.stage.WaitFile? ==> forall j :: 0 <= j < |s.threads| ==> !FileCallback(s.threads[j]))
            && (t.stage.Rearming? ==> u.connectionArmed && u.receiving == s.receiving + 1)
  {
    forall j | 0 <= j < |s.threads|
      ensures s.threads[k].stage.WaitConnection? ==> !ConnectionCallback(s.threads[j])
      ensures s.threads[k].stage.WaitFile? ==> !FileCallback(s.threads[j])
    {
      if ConnectionCallback(s.threads[j]) { OneCounts(s.threads, j, ConnectionCallback); }
      if FileCallback(s.threads[j]) { OneCounts(s.threads, j, FileCallback); }
    }
  }

  /** What is found counts: no data, a file that cannot be opened and a failed write are all failures. */
  lemma FindingsCount(s: State, k: nat, finding: Finding)
    requires Enabled(s, Go(k, finding))
    ensures var u, t := Apply(s, Go(k, finding)), s.threads[k];
            && (t.stage.Deciding? ==> (u.threads[k].found.Fails? <==> !finding.Stays?)
                                      && (u.threads[k].stage.SpinFile? <==> finding.Stays?))
            && (t.stage.Opening? || t.stage.Checking? ==> u.threads[k].found == finding)
            && (t.stage.Opening? && finding.Changes? ==> u.fileArmed)
            && (!t.stage.Deciding? && !t.stage.Opening? && !t.stage.Checking? ==> u.threads[k].found == t.found)
  {
  }

  // Progress.

  /** At most how many operations a thread is from its end, spinning aside. */
  function Left(t: Thread): nat {
    match t.stage
    case Checking => 10
    case TryConnection => 9
    case DisarmFile => 9
    case Deciding => 8
    case WaitFile => 8
    case TryFile => 8
    case SpinFile => 7
    case ClosingFile => 7
    case Opening => 6
    case MovingFile => 6
    case Issuing => 5
    case GivingUp => 5
    case UnlockFile => 5
    case DisarmConnection => 4
    case WaitConnection => 3
    case Disconnecting => 2
    case UnlockConnection => 1
    case Rearming => 1
    case Done => 0
  }

  function TotalLeft(ts: seq<Thread>): nat {
    if ts == [] then 0 else Left(ts[0]) + TotalLeft(ts[1..])
  }

  lemma {:induction false} LeftAfter(ts: seq<Thread>, k: nat, t: Thread)
    requires k < |ts|
    ensures TotalLeft(ts[k := t]) == TotalLeft(ts) - Left(ts[k]) + Left(t)
  {
    if k == 0 {
      assert ts[k := t][1..] == ts[1..];
    } else {
      assert ts[k := t][1..] == ts[1..][k - 1 := t];
      LeftAfter(ts[1..], k - 1, t);
    }
  }

  predicate Spins(s: State, k: nat)
    requires k < |s.threads|
  {
    s.threads[k].stage.SpinFile? && s.file != 0
  }

  lemma NextIsCloser(s: State, t: Thread, finding: Finding)
    requires !t.stage.Done?
    ensures if t.stage.SpinFile? && s.file != 0 then Next(s, t, finding) == t && Effect(s, t, finding) == s
            else Left(Next(s, t, finding)) < Left(t)
  {
  }

  /**
   No livelock: every operation of a thread brings the work left down, except a spin, which changes
   nothing. Between arrivals there are finitely many.
   */
  lemma WorkDecreases(s: State, k: nat, finding: Finding)
    requires Enabled(s, Go(k, finding))
    ensures var u := Apply(s, Go(k, finding));
            if Spins(s, k) then u == s else TotalLeft(u.threads) < TotalLeft(s.threads)
  {
    NextIsCloser(s, s.threads[k], finding);
    LeftAfter(s.threads, k, Next(s, s.threads[k], finding));
    if Spins(s, k) {
      assert s.threads[k := s.threads[k]] == s.threads;
    }
  }

  /** A move that is not in vain: a write outstanding completes, or a thread goes on. */
  predicate Useful(s: State, m: Move) {
    Enabled(s, m) && (m.WriteDone? || (m.Go? && !Spins(s, m.thread)))
  }

  /** A timer's callback waits for nobody. */
  lemma CallbackGoesOn(s: State, k: nat)
    requires Inv(s) && k < |s.threads| && !s.threads[k].stage.Done?
    requires s.threads[k].role.ConnectionTimer? || s.threads[k].role.FileTimer?
    ensures Useful(s, Go(k, Stays))
  {
    assert Fits(s.threads[k]);
  }

  /** Who waits in a cancel waits for a callback, and that goes on. */
  lemma WaiterGoesOn(s: State, k: nat) returns (m: Move)
    requires Inv(s) && k < |s.threads| && (s.threads[k].stage.WaitConnection? || s.threads[k].stage.WaitFile?)
    ensures Useful(s, m)
  {
    if s.threads[k].stage.WaitConnection? && Count(s.threads, ConnectionCallback) > 0 {
      var j := SomeCounts(s.threads, ConnectionCallback);
      CallbackGoesOn(s, j);
      m := Go(j, Stays);
    } else if s.threads[k].stage.WaitFile? && Count(s.threads, FileCallback) > 0 {
      var j := SomeCounts(s.threads, FileCallback);
      CallbackGoesOn(s, j);
      m := Go(j, Stays);
    } else {
      m := Go(k, Stays);
    }
  }

  /** Who spins waits for a write, or for a thread inside the file lock; and that goes on. */
  lemma SpinnerGoesOn(s: State) returns (m: Move)
    requires Inv(s) && s.file != 0
    ensures Useful(s, m)
  {
    if s.writing > 0 {
      m := WriteDone;
    } else {
      var j := SomeCounts(s.threads, InFile);
      if s.threads[j].stage.WaitFile? {
        m := WaiterGoesOn(s, j);
      } else {
        m := Go(j, Stays);
      }
    }
  }

  /**
   No deadlock: as long as any thread has not ended, some move is not in vain. A receive that spins for
   the file lock while it holds the connection lock, and a handler that waits for either timer's
   callbacks under either lock, are waited for by nobody they wait for.
   */
  lemma NeverDeadlocks(s: State, k: nat) returns (m: Move)
    requires Reachable(s) && k < |s.threads| && !s.threads[k].stage.Done?
    ensures Useful(s, m)
  {
    ReachableKeepsInv(s);
    if Spins(s, k) {
      m := SpinnerGoesOn(s);
    } else if s.threads[k].stage.WaitConnection? || s.threads[k].stage.WaitFile? {
      m := WaiterGoesOn(s, k);
    } else {
      m := Go(k, Stays);
    }
  }

  // Data nobody takes.

  /** The data of a receive is dropped if and only if some thread is inside the connection lock just then. */
  lemma DroppedExactlyUnderTheLock(s: State, k: nat, finding: Finding)
    requires Reachable(s) && k < |s.threads| && s.threads[k].role.Receiver? && s.threads[k].stage.TryConnection?
    ensures Apply(s, Go(k, finding)).dropped == s.dropped + 1
            <==> exists j :: 0 <= j < |s.threads| && InConnection(s.threads[j])
  {
    ReachableKeepsInv(s);
    if s.connection != 0 {
      var j := SomeCounts(s.threads, InConnection);
    } else {
      forall j | 0 <= j < |s.threads| ensures !InConnection(s.threads[j]) {
        if InConnection(s.threads[j]) { OneCounts(s.threads, j, InConnection); }
      }
    }
  }

  predicate Leads(s: State, m: Move, t: State) {
    Enabled(s, m) && t == Apply(s, m)
  }

  /** A run spelled out state by state. */
  predicate Trace(ss: seq<State>, ms: seq<Move>) {
    |ss| == |ms| + 1 && forall i :: 0 <= i < |ms| ==> Leads(ss[i], ms[i], ss[i + 1])
  }

  lemma {:induction false} TraceRuns(ss: seq<State>, ms: seq<Move>)
    requires Trace(ss, ms)
    ensures Possible(ss[0], ms) && Run(ss[0], ms) == ss[|ms|]
    decreases |ms|
  {
    if ms != [] {
      assert Leads(ss[0], ms[0], ss[1]);
      assert Trace(ss[1..], ms[1..]) by {
        forall i | 0 <= i < |ms[1..]| ensures Leads(ss[1..][i], ms[1..][i], ss[1..][i + 1]) {
          assert Leads(ss[i + 1], ms[i + 1], ss[i + 2]);
        }
      }
      TraceRuns(ss[1..], ms[1..]);
    }
  }

  ghost predicate Reaches(s: State, t: State) {
    exists ms :: Possible(s, ms) && t == Run(s, ms)
  }

  lemma TraceReaches(ss: seq<State>, ms: seq<Move>)
    requires Trace(ss, ms)
    ensures Reaches(ss[0], ss[|ms|])
  {
    TraceRuns(ss, ms);
  }

  lemma {:induction false} RunsJoin(s: State, ms: seq<Move>, ns: seq<Move>)
    requires Possible(s, ms) && Possible(Run(s, ms), ns)
    ensures Possible(s, ms + ns) && Run(s, ms + ns) == Run(Run(s, ms), ns)
    decreases |ms|
  {
    if ms == [] {
      assert [] + ns == ns;
    } else {
      assert (ms + ns)[1..] == ms[1..] + ns;
      RunsJoin(Apply(s, ms[0]), ms[1..], ns);
    }
  }

  lemma ReachesOn(s: State, t: State)
    requires Reachable(s) && Reaches(s, t)
    ensures Reachable(t)
  {
    var ms :| Possible(INITIAL, ms) && s == Run(INITIAL, ms);
    var ns :| Possible(s, ns) && t == Run(s, ns);
    RunsJoin(INITIAL, ms, ns);
  }

  lemma InitialIsReachable()
    ensures Reachable(INITIAL)
  {
    var none: seq<Move> := [];
    assert Possible(INITIAL, none) && INITIAL == Run(INITIAL, none);
  }

  /** The handler of a receive that has started its write and still holds the connection lock. */
  const LEAVING := Thread(Receiver, UnlockConnection, Changes, [StartedWrite])

  /** A first receive: its handler takes the connection lock, finds data, and tries the file lock. */
  lemma FirstReceive(s: State) returns (t: State)
    requires s.connection == 0 && s.receiving == 0 && s.threads == []
    ensures Reaches(s, t)
    ensures t.connection == 1 && t.receiving == 0
    ensures t.file == s.file && t.writing == s.writing && t.dropped == s.dropped
    ensures t.threads == [Thread(Receiver, SpinFile, Stays, [])]
  {
    var s1 := Apply(s, AcceptDone);
    var s2 := Apply(s1, ReceiveDone);
    var s3 := Apply(s2, Go(0, Stays));
    t := Apply(s3, Go(0, Stays));
    TraceReaches([s, s1, s2, s3, t], [AcceptDone, ReceiveDone, Go(0, Stays), Go(0, Stays)]);
  }

  /** It opens the file and starts the write; it still holds the connection lock. */
  lemma WriteStarts(s: State) returns (t: State)
    requires s.file == 0 && s.threads == [Thread(Receiver, SpinFile, Stays, [])]
    ensures Reaches(s, t)
    ensures t.file == 1 && t.writing == s.writing + 1
    ensures t.connection == s.connection && t.receiving == s.receiving && t.dropped == s.dropped
    ensures t.threads == [LEAVING]
  {
    var s1 := Apply(s, Go(0, Stays));
    var s2 := Apply(s1, Go(0, Changes));
    t := Apply(s2, Go(0, Stays));
    assert [] + [StartedWrite] == [StartedWrite];
    TraceReaches([s, s1, s2, t], [Go(0, Stays), Go(0, Changes), Go(0, Stays)]);
  }

  /** The write completes, and its handler starts the next receive. */
  lemma WriteCompletes(s: State) returns (t: State)
    requires s.file == 1 && s.writing == 1 && s.threads == [LEAVING]
    ensures Reaches(s, t)
    ensures t.connection == s.connection && t.receiving == s.receiving + 1 && t.writing == 0 && t.dropped == s.dropped
    ensures t.connectionArmed
    ensures t.threads == [LEAVING, Thread(Writer, Done, Stays, [ReceivedAgain])]
  {
    var s1 := Apply(s, WriteDone);
    var s2 := Apply(s1, Go(1, Stays));
    var s3 := Apply(s2, Go(1, Stays));
    t := Apply(s3, Go(1, Stays));
    assert [] + [ReceivedAgain] == [ReceivedAgain];
    TraceReaches([s, s1, s2, s3, t], [WriteDone, Go(1, Stays), Go(1, Stays), Go(1, Stays)]);
  }

  /** The next receive completes before the lock is released. */
  lemma SecondReceive(s: State) returns (t: State)
    requires s.connection == 1 && s.receiving == 1
    requires s.threads == [LEAVING, Thread(Writer, Done, Stays, [ReceivedAgain])]
    ensures Reaches(s, t) && AllDone(t)
    ensures t.dropped == s.dropped + 1 && t.receiving == 0 && t.writing == s.writing && t.connection == 0
    ensures t.connectionArmed == s.connectionArmed
  {
    var s1 := Apply(s, ReceiveDone);
    var s2 := Apply(s1, Go(2, Stays));
    t := Apply(s2, Go(0, Stays));
    TraceReaches([s, s1, s2, t], [ReceiveDone, Go(2, Stays), Go(0, Stays)]);
  }

  predicate AllDone(s: State) {
    forall k :: 0 <= k < |s.threads| ==> s.threads[k].stage.Done?
  }

  /**
   One connection, nothing failing: its handler still holds the connection lock when the write has
   completed and the next receive too. That receive's data is dropped, and nothing is outstanding any
   more; only the connection timer will close the connection.
   */
  lemma FastReceiveIsDropped() returns (s: State)
    ensures Reachable(s) && AllDone(s)
    ensures s.dropped == 1 && s.receiving == 0 && s.writing == 0 && s.connectionArmed
  {
    InitialIsReachable();
    var r := FirstReceive(INITIAL);
    ReachesOn(INITIAL, r);
    var t := WriteStarts(r);
    ReachesOn(r, t);
    var u := WriteCompletes(t);
    ReachesOn(t, u);
    s := SecondReceive(u);
    ReachesOn(u, s);
  }
}
