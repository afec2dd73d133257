/** What every orderly run of the receiver slot keeps, and exactly when a step is orderly. */
module ReceiverRuns {
  import opened Basics
  import opened ReceiverSpec

  /** File n, wherever it is; a file that never was, or was deleted, holds nothing. */
  function FileAt(disk: Disk, n: nat): seq<byte> {
    if n in disk.final then disk.final[n] else TmpFile(disk, n)
  }

  /** Files 1 to n, one after the other. */
  function Contents(disk: Disk, n: nat): seq<byte> {
    if n == 0 then [] else Contents(disk, n - 1) + FileAt(disk, n)
  }

  /** The bytes received and not yet written or dropped. */
  function InFlight(s: Slot): seq<byte> {
    if s.file.writing.Some? then Chunk(s.buf, s.file.writing.value) else []
  }

  predicate OneChain(s: Slot) {
    s.net.accepts + s.net.receives + Ind(s.file.writing.Some?) + s.net.disconnects == 1
  }

  /** The socket's part in the chain, beside `writes` writes of the file. */
  predicate Linked(net: Net, writes: nat) {
    && net.accepts + net.receives + writes + net.disconnects == 1
    && net.cancelled <= net.disconnects
    && (net.receives > 0 ==> net.timer.Armed?)
    && (net.timer.Armed? ==> net.receives + writes > 0)
  }

  /** One operation of the chain, apart from a receive that has been cancelled. */
  predicate Chained(s: Slot) {
    && Linked(s.net, Ind(s.file.writing.Some?))
    && s.file.mutex as int == Ind(s.file.writing.Some?)
    && |s.buf| == BUFFER_SIZE
    && (s.file.writing.Some? ==> s.file.open && 0 < s.file.writing.value <= BUFFER_SIZE)
  }

  /** No number above the last one given out is in use, and none in both directories. */
  predicate Numbered(f: Store) {
    && (forall n :: n in f.disk.tmp ==> 0 < n <= f.nfile && n !in f.disk.final)
    && (forall n :: n in f.disk.final ==> 0 < n <= f.nfile && (n == f.nfile ==> !f.open))
  }

  /** Every file within its bound, and a closed one in the final directory unless its move failed. */
  predicate Filed(c: Config, f: Store) {
    && (forall n :: n in f.disk.tmp ==> |f.disk.tmp[n]| < c.maxfilesize as nat + BUFFER_SIZE)
    && (forall n :: n in f.disk.final ==> |f.disk.final[n]| < c.maxfilesize as nat + BUFFER_SIZE)
    && f.disk.tmp.Keys == f.stuck + (if f.open then {f.nfile} else {})
    && (f.open ==>
          && 0 < f.nfile && f.nfile in f.disk.tmp && f.nfile !in f.stuck
          && f.size as nat == |f.disk.tmp[f.nfile]|)
  }

  predicate Sized(c: Config, f: Store) {
    Filed(c, f) && (f.open ==> f.size < c.maxfilesize)
  }

  /** Every open file has its timer armed, or the write outstanding is one that will close it. */
  predicate Remembered(c: Config, f: Store, now: nat) {
    && f.openedAt <= now
    && (f.timer.Some? ==> f.open)
    && (f.open ==>
          && f.creation == f.openedAt / MICROS
          && (f.timer == Some(f.openedAt + c.Age())
              || (f.timer.None? && f.writing.Some? && f.openedAt + c.Age() <= now)))
  }

  predicate Conserved(s: Slot) {
    && Contents(s.file.disk, s.file.nfile) == s.stored
    && |s.received| == |s.stored| + s.lost + |InFlight(s)|
    && (s.lost == 0 ==> s.received == s.stored + InFlight(s))
  }

  predicate Inv(c: Config, s: Slot) {
    Chained(s) && Numbered(s.file) && Sized(c, s.file) && Remembered(c, s.file, s.now) && Conserved(s)
  }

  // Files.

  /** Contents depends only on the files up to n. */
  lemma {:induction false} ContentsFrame(d: Disk, d': Disk, n: nat)
    requires forall k :: 0 < k <= n ==> FileAt(d, k) == FileAt(d', k)
    ensures Contents(d, n) == Contents(d', n)
  {
    if n > 0 {
      ContentsFrame(d, d', n - 1);
    }
  }

  lemma OpenKeepsFiles(c: Config, f: Store, now: nat, opens: bool)
    requires c.Valid() && !f.open && Numbered(f) && Sized(c, f)
    ensures var g := OpenFile(c, f, now, opens);
            Numbered(g) && Sized(c, g) && Contents(g.disk, g.nfile) == Contents(f.disk, f.nfile)
  {
    var g := OpenFile(c, f, now, opens);
    assert f.nfile + 1 !in f.disk.tmp && f.nfile + 1 !in f.disk.final;
    ContentsFrame(f.disk, g.disk, f.nfile);
    var whole := Contents(f.disk, f.nfile);
    assert whole + [] == whole;
    if opens {
      assert g.disk.tmp.Keys == f.disk.tmp.Keys + {g.nfile};
    }
  }

  /** Appending to the open file appends to the whole. */
  lemma AppendKeepsFiles(c: Config, f: Store, chunk: seq<byte>)
    requires c.Valid() && f.open && Numbered(f) && Sized(c, f) && |chunk| <= BUFFER_SIZE
    ensures var g := Appended(f, chunk);
            && Numbered(g) && Filed(c, g)
            && Contents(g.disk, g.nfile) == Contents(f.disk, f.nfile) + chunk
            && g.size as nat == f.size as nat + |chunk|
  {
    var g := Appended(f, chunk);
    ContentsFrame(f.disk, g.disk, f.nfile - 1);
    assert f.nfile !in f.disk.final;
    var before := Contents(f.disk, f.nfile - 1);
    assert (before + FileAt(f.disk, f.nfile)) + chunk == before + (FileAt(f.disk, f.nfile) + chunk);
    assert g.disk.tmp.Keys == f.disk.tmp.Keys;
  }

  /** Closing and moving the open file, the only one of its number, changes no content. */
  lemma RotateKeepsFiles(c: Config, f: Store, cancelTimer: bool, moves: bool)
    requires f.open && Numbered(f) && Filed(c, f)
    ensures var g := MoveFile(CloseFile(f, cancelTimer), moves);
            Numbered(g) && Sized(c, g) && Contents(g.disk, g.nfile) == Contents(f.disk, f.nfile)
  {
    ContentsFrame(f.disk, MoveFile(CloseFile(f, cancelTimer), moves).disk, f.nfile);
  }

  /** A file is deleted only when it is empty. */
  lemma DiscardKeepsFiles(c: Config, f: Store, moves: bool)
    requires f.open && Numbered(f) && Filed(c, f)
    ensures var g := Discarded(f, moves);
            Numbered(g) && Sized(c, g) && Contents(g.disk, g.nfile) == Contents(f.disk, f.nfile)
  {
    var h := f.(writing := None);
    if f.size > 0 {
      RotateKeepsFiles(c, h, true, moves);
    } else {
      assert f.nfile !in f.disk.final;
      var g := DeleteFile(CloseFile(h, true));
      ContentsFrame(f.disk, g.disk, f.nfile);
      assert g.disk.tmp.Keys == f.disk.tmp.Keys - {f.nfile};
    }
  }

  /** A file older than its timer's deadline is too old by the clock's seconds too. */
  lemma OldInSeconds(c: Config, openedAt: nat, now: nat)
    requires openedAt + c.Age() <= now
    ensures openedAt / MICROS + c.maxfileage as nat <= now / MICROS
  {
  }

  // One step.

  /** A step that ends with no write outstanding, its file side already settled but for the lock. */
  lemma SettledKeepsInv(c: Config, s: Slot, g: Store, net: Net, t: Slot)
    requires t == s.(file := Unlocked(g), net := net, received := t.received, stored := t.stored, lost := t.lost)
    requires |s.buf| == BUFFER_SIZE && g.writing.None? && g.mutex == 1
    requires net.accepts + net.receives + net.disconnects == 1 && net.cancelled == 0
    requires net.timer.Armed? <==> net.receives == 1
    requires Numbered(g) && Sized(c, g) && Remembered(c, g, s.now)
    requires Contents(g.disk, g.nfile) == t.stored
    requires |t.received| == |t.stored| + t.lost && (t.lost == 0 ==> t.received == t.stored)
    ensures Inv(c, t)
  {
    assert InFlight(t) == [];
    assert t.stored + [] == t.stored;
  }

  /** A step that leaves a write outstanding, its file side already settled. */
  lemma IssuedKeepsInv(c: Config, s: Slot, g: Store, len: nat, t: Slot)
    requires t == s.(file := g.(writing := Some(len)), net := t.net, received := s.received + Chunk(s.buf, len))
    requires |s.buf| == BUFFER_SIZE && 0 < len <= BUFFER_SIZE
    requires g.open && g.mutex == 1 && g.timer.Some?
    requires t.net.accepts == t.net.receives == t.net.disconnects == t.net.cancelled == 0
    requires Numbered(g) && Sized(c, g) && Remembered(c, g, s.now)
    requires Contents(g.disk, g.nfile) == s.stored
    requires |s.received| == |s.stored| + s.lost && (s.lost == 0 ==> s.received == s.stored)
    ensures Inv(c, t)
  {
    assert InFlight(t) == Chunk(s.buf, len);
  }

  /** Between writes everything received has been stored or dropped. */
  lemma NothingInFlight(s: Slot)
    requires Conserved(s) && s.file.writing.None?
    ensures |s.received| == |s.stored| + s.lost && (s.lost == 0 ==> s.received == s.stored)
  {
    assert s.stored + [] == s.stored;
  }

  /** The file a chunk is to be written to, opened if need be. */
  lemma ReadyKeepsFiles(c: Config, f: Store, now: nat, opens: bool)
    requires c.Valid() && Numbered(f) && Sized(c, f) && Remembered(c, f, now) && f.writing.None?
    ensures var g := Ready(c, f.(mutex := 1), now, opens);
            && Numbered(g) && Sized(c, g) && Contents(g.disk, g.nfile) == Contents(f.disk, f.nfile)
            && Remembered(c, g, now) && g.writing.None? && g.mutex == 1
  {
    if !f.open {
      OpenKeepsFiles(c, f.(mutex := 1), now, opens);
    }
  }

  lemma ReceiveKeepsInv(c: Config, s: Slot, count: nat, opens: bool)
    requires c.Valid() && Inv(c, s) && Enabled(s, ReceiveDone(count, opens))
    ensures Inv(c, Step(c, s, ReceiveDone(count, opens)))
  {
    var t := Step(c, s, ReceiveDone(count, opens));
    NothingInFlight(s);
    if count == 0 {
      assert s.received + [] == s.received;
      assert t == s.(net := t.net);
      NetKeepsInv(c, s, t.net);
    } else {
      ReadyKeepsFiles(c, s.file, s.now, opens);
      var g := Ready(c, s.file.(mutex := 1), s.now, opens);
      if g.open {
        IssuedKeepsInv(c, s, g, count, t);
      } else {
        SettledKeepsInv(c, s, g, t.net, t);
      }
    }
  }

  /** What the write left of its file: closed, or young and with its timer armed. */
  lemma RotatedRemembers(c: Config, f: Store, now: nat, moves: bool)
    requires f.writing.None? && f.openedAt <= now && f.creation == f.openedAt / MICROS
    requires f.timer == Some(f.openedAt + c.Age()) || f.openedAt + c.Age() <= now
    requires f.open
    ensures Remembered(c, Rotated(c, f, now, moves), now)
  {
    if f.openedAt + c.Age() <= now {
      OldInSeconds(c, f.openedAt, now);
    }
  }

  lemma RotatedKeepsFiles(c: Config, f: Store, now: nat, moves: bool)
    requires f.open && Numbered(f) && Filed(c, f)
    ensures var g := Rotated(c, f, now, moves);
            && Numbered(g) && Sized(c, g) && Contents(g.disk, g.nfile) == Contents(f.disk, f.nfile)
            && g.writing == f.writing && g.mutex == f.mutex
  {
    if TooBigOrTooOld(c, f, now) {
      RotateKeepsFiles(c, f, true, moves);
    }
  }

  /** Bytes written leave the flight; the rest of it is dropped. */
  lemma WriteConserves(s: Slot, count: nat)
    requires Conserved(s) && |s.buf| == BUFFER_SIZE
    requires s.file.writing.Some? && count <= s.file.writing.value <= BUFFER_SIZE
    ensures var stored, lost := s.stored + Chunk(s.buf, count), s.lost + s.file.writing.value - count;
            |s.received| == |stored| + lost && (lost == 0 ==> s.received == stored)
  {
  }

  lemma WriteKeepsInv(c: Config, s: Slot, count: nat, moves: bool)
    requires c.Valid() && Inv(c, s) && s.file.writing.Some? && count <= s.file.writing.value
    ensures Inv(c, Written(c, s, count, moves))
  {
    var chunk := Chunk(s.buf, count);
    var f := Appended(s.file, chunk);
    AppendKeepsFiles(c, s.file, chunk);
    RotatedKeepsFiles(c, f, s.now, moves);
    RotatedRemembers(c, f, s.now, moves);
    WriteConserves(s, count);
    var t := Written(c, s, count, moves);
    SettledKeepsInv(c, s, Rotated(c, f, s.now, moves), t.net, t);
  }

  lemma DiscardedIsClosed(c: Config, f: Store, now: nat, moves: bool)
    requires f.openedAt <= now
    ensures var g := Discarded(f, moves);
            Remembered(c, g, now) && g.writing.None? && g.mutex == f.mutex
  {
  }

  lemma WriteFailureKeepsInv(c: Config, s: Slot, moves: bool)
    requires c.Valid() && Inv(c, s) && s.file.writing.Some?
    ensures Inv(c, ErrorWritingFile(s, moves))
  {
    DiscardKeepsFiles(c, s.file, moves);
    DiscardedIsClosed(c, s.file, s.now, moves);
    WriteConserves(s, 0);
    assert s.stored + [] == s.stored;
    var t := ErrorWritingFile(s, moves);
    SettledKeepsInv(c, s, Discarded(s.file, moves), t.net, t);
  }

  lemma FileTimerKeepsInv(c: Config, s: Slot, moves: bool)
    requires c.Valid() && Inv(c, s) && Enabled(s, FileTimer(moves))
    ensures Inv(c, Step(c, s, FileTimer(moves)))
  {
    if s.file.mutex == 0 {
      RotateKeepsFiles(c, s.file.(timer := None, mutex := 1), false, moves);
    }
  }

  /** What the socket and the connection timer do leaves the file side alone. */
  lemma NetKeepsInv(c: Config, s: Slot, net: Net)
    requires Inv(c, s) && Chained(s.(net := net))
    ensures Inv(c, s.(net := net))
  {
    assert InFlight(s.(net := net)) == InFlight(s);
  }

  /** Orderly socket events: the connection timer not beside a write, a cancelled receive aborted. */
  lemma SocketKeepsLink(net: Net, writes: nat, e: Event)
    requires OnSocket(e) && NetEnabled(net, e) && Linked(net, writes)
    ensures Linked(NetStep(net, e), writes) <==> !e.CancelledReceiveFails? && (e.ConnectionTimer? ==> writes == 0)
  {
  }

  lemma SocketKeepsInv(c: Config, s: Slot, e: Event)
    requires Inv(c, s) && OnSocket(e) && NetEnabled(s.net, e) && Orderly(s, e)
    ensures Inv(c, s.(net := NetStep(s.net, e)))
  {
    SocketKeepsLink(s.net, Ind(s.file.writing.Some?), e);
    NetKeepsInv(c, s, NetStep(s.net, e));
  }

  lemma StepKeepsInv(c: Config, s: Slot, e: Event)
    requires c.Valid() && Inv(c, s) && Enabled(s, e) && Orderly(s, e)
    ensures Inv(c, Step(c, s, e))
  {
    match e
    case ReceiveDone(count, opens) => ReceiveKeepsInv(c, s, count, opens);
    case WriteDone(count, moves) => WriteKeepsInv(c, s, count, moves);
    case WriteFails(moves) => WriteFailureKeepsInv(c, s, moves);
    case FileTimer(moves) => FileTimerKeepsInv(c, s, moves);
    case Tick(micros) =>
    case OsFills(contents) =>
    case _ => SocketKeepsInv(c, s, e);
  }

  // Runs.

  lemma InitialKeepsInv(c: Config, buf: seq<byte>, now: nat)
    requires c.Valid() && |buf| == BUFFER_SIZE
    ensures Inv(c, Initial(buf, now))
  {
    assert Contents(Initial(buf, now).file.disk, 0) == [];
  }

  lemma {:induction false} RunKeepsInv(c: Config, s: Slot, es: seq<Event>)
    requires c.Valid() && Inv(c, s) && OrderlyRun(c, s, es)
    ensures Possible(c, s, es) && Inv(c, Run(c, s, es))
    decreases |es|
  {
    if es != [] {
      StepKeepsInv(c, s, es[0]);
      RunKeepsInv(c, Step(c, s, es[0]), es[1..]);
    }
  }

  ghost predicate Starts(s: Slot) {
    |s.buf| == BUFFER_SIZE && s == Initial(s.buf, s.now)
  }

  /** A state that some orderly run of a newly constructed slot leads to. */
  ghost predicate Reachable(c: Config, t: Slot) {
    && c.Valid()
    && exists s, es :: Starts(s) && OrderlyRun(c, s, es) && Possible(c, s, es) && t == Run(c, s, es)
  }

  lemma StartKeepsInv(c: Config, s: Slot)
    requires c.Valid() && Starts(s)
    ensures Inv(c, s)
  {
    InitialKeepsInv(c, s.buf, s.now);
  }

  lemma ReachableKeepsInv(c: Config, t: Slot)
    requires Reachable(c, t)
    ensures c.Valid() && Inv(c, t)
  {
    var s, es :| Starts(s) && OrderlyRun(c, s, es) && Possible(c, s, es) && t == Run(c, s, es);
    StartKeepsInv(c, s);
    RunKeepsInv(c, s, es);
  }

  /**
   Rotation conserves bytes. Through size rotation, age rotation, timer rotation, failed writes,
   failed opens and failed moves, the files in number order hold exactly what was stored. Every
   closed file is in the final directory unless its own move failed, and no number is used twice.
   */
  lemma RotationConservesBytes(c: Config, t: Slot)
    requires Reachable(c, t)
    ensures Contents(t.file.disk, t.file.nfile) == t.stored
    ensures t.file.disk.tmp.Keys == t.file.stuck + (if t.file.open then {t.file.nfile} else {})
    ensures forall n :: n in t.file.disk.tmp || n in t.file.disk.final ==> 0 < n <= t.file.nfile
    ensures t.file.disk.tmp.Keys !! t.file.disk.final.Keys
  {
    ReachableKeepsInv(c, t);
  }

  /** A file in the final directory is never replaced, and no step takes a byte out of any file. */
  lemma FilesOnlyGrow(c: Config, t: Slot, e: Event, n: nat)
    requires Reachable(c, t) && Enabled(t, e)
    ensures FileGrows(t, Step(c, t, e), n)
  {
    ReachableKeepsInv(c, t);
    InvFilesOnlyGrow(c, t, e, n);
  }

  predicate FileGrows(s: Slot, t: Slot, n: nat) {
    && (n in s.file.disk.final ==> n in t.file.disk.final && t.file.disk.final[n] == s.file.disk.final[n])
    && FileAt(s.file.disk, n) <= FileAt(t.file.disk, n)
  }

  lemma WriteGrows(c: Config, s: Slot, e: Event, n: nat)
    requires Inv(c, s) && Enabled(s, e) && (e.WriteDone? || e.WriteFails?)
    ensures FileGrows(s, Step(c, s, e), n)
  {
    if e.WriteDone? {
      assert FileGrows(s, s.(file := Appended(s.file, Chunk(s.buf, e.count))), n);
    }
  }

  lemma InvFilesOnlyGrow(c: Config, s: Slot, e: Event, n: nat)
    requires Inv(c, s) && Enabled(s, e)
    ensures FileGrows(s, Step(c, s, e), n)
  {
    if e.WriteDone? || e.WriteFails? {
      WriteGrows(c, s, e, n);
    }
  }

  /**
   Single chain: one accept, receive, write or disconnect outstanding, apart from a cancelled
   receive, which only a disconnect goes with. So the buffer is never received into while it is
   being written, and a receive, always timed, finds the file lock free.
   */
  lemma SingleChain(c: Config, t: Slot)
    requires Reachable(c, t)
    ensures OneChain(t)
    ensures t.net.cancelled == 0 || (t.net.cancelled == 1 && t.net.disconnects == 1)
    ensures t.net.receives > 0 ==> t.net.timer.Armed?
    ensures t.net.receives + t.net.cancelled > 0 ==> t.file.writing.None? && t.file.mutex == 0
    ensures t.file.mutex as int == Ind(t.file.writing.Some?)
  {
    ReachableKeepsInv(c, t);
  }

  /**
   What is stored, followed by what is being written, is what was received across all sessions of
   the slot, if and only if nothing was dropped: every write completed in full, and every file opened.
   */
  lemma StoredIsReceived(c: Config, t: Slot)
    requires Reachable(c, t)
    ensures t.stored + InFlight(t) == t.received <==> t.lost == 0
    ensures t.lost == 0 ==> t.stored <= t.received
  {
    ReachableKeepsInv(c, t);
  }

  /** The size the handlers keep is the size of the file; it is bounded, and its sum never wraps. */
  lemma FileSizeBound(c: Config, t: Slot)
    requires Reachable(c, t)
    ensures t.file.open ==>
              t.file.nfile in t.file.disk.tmp
              && t.file.size as nat == |t.file.disk.tmp[t.file.nfile]| < c.maxfilesize as nat
    ensures forall n :: 0 < n <= t.file.nfile ==> |FileAt(t.file.disk, n)| < c.maxfilesize as nat + BUFFER_SIZE
    ensures t.file.writing.Some? ==> t.file.size as nat + t.file.writing.value < 0x1_0000_0000_0000_0000
  {
    ReachableKeepsInv(c, t);
  }

  /** However a write of a file past its age completes, it closes the file. */
  lemma LateWriteCloses(c: Config, t: Slot, count: nat, moves: bool)
    requires t.file.writing.Some? && count <= t.file.writing.value
    requires t.file.creation == t.file.openedAt / MICROS && t.file.openedAt + c.Age() <= t.now
    ensures !Written(c, t, count, moves).file.open && !ErrorWritingFile(t, moves).file.open
  {
    OldInSeconds(c, t.file.openedAt, t.now);
    assert TooBigOrTooOld(c, Appended(t.file, Chunk(t.buf, count)), t.now);
  }

  /**
   An open file has its timer armed for the moment it reaches the maximum age, or has already reached
   it with a write outstanding whose completion e, whatever it is, closes the file.
   */
  predicate Minded(c: Config, t: Slot, e: Event) {
    && (t.file.timer == Some(t.file.openedAt + c.Age())
        || (t.file.timer.None? && t.file.writing.Some? && t.file.openedAt + c.Age() <= t.now))
    && (t.file.timer.None? && Enabled(t, e) && (e.WriteDone? || e.WriteFails?) ==> !Step(c, t, e).file.open)
  }

  lemma RememberedIsMinded(c: Config, t: Slot, e: Event)
    requires Remembered(c, t.file, t.now) && t.file.open
    ensures Minded(c, t, e)
  {
    if t.file.timer.None? && Enabled(t, e) {
      match e
      case WriteDone(count, moves) => LateWriteCloses(c, t, count, moves);
      case WriteFails(moves) => LateWriteCloses(c, t, 0, moves);
      case _ =>
    }
  }

  /** No forgotten file: every open file is minded, at every completion that may come. */
  lemma NoForgottenFile(c: Config, t: Slot, e: Event)
    requires Reachable(c, t) && t.file.open
    ensures Minded(c, t, e)
  {
    ReachableKeepsInv(c, t);
    RememberedIsMinded(c, t, e);
  }

  // The hypotheses.

  /** One chain now and after every orderly run. */
  ghost predicate StaysOneChain(c: Config, t: Slot) {
    forall es :: OrderlyRun(c, t, es) ==> Possible(c, t, es) && OneChain(Run(c, t, es))
  }

  lemma InvStaysOneChain(c: Config, t: Slot)
    requires c.Valid() && Inv(c, t)
    ensures StaysOneChain(c, t)
  {
    forall es | OrderlyRun(c, t, es) ensures Possible(c, t, es) && OneChain(Run(c, t, es)) {
      RunKeepsInv(c, t, es);
    }
  }

  lemma SplitChainStaysSplit(c: Config, t: Slot)
    requires !OneChain(t)
    ensures !StaysOneChain(c, t)
  {
    var none: seq<Event> := [];
    assert OrderlyRun(c, t, none) && Possible(c, t, none) && Run(c, t, none) == t;
  }

  lemma DisorderSplitsTheChain(c: Config, s: Slot, e: Event)
    requires Chained(s) && Enabled(s, e) && !Orderly(s, e)
    ensures !OneChain(Step(c, s, e))
  {
    assert OnSocket(e);
  }

  /**
   Exactly when a step is orderly: all orderly futures of a step keep the single chain if and only if
   the step is not the connection timer during a write, nor a cancelled receive that fails with an
   error other than the abort.
   */
  lemma OrderlyExactlyKeepsTheChain(c: Config, s: Slot, e: Event)
    requires c.Valid() && Inv(c, s) && Enabled(s, e)
    ensures StaysOneChain(c, Step(c, s, e)) <==> Orderly(s, e)
  {
    if Orderly(s, e) {
      StepKeepsInv(c, s, e);
      InvStaysOneChain(c, Step(c, s, e));
    } else {
      DisorderSplitsTheChain(c, s, e);
      SplitChainStaysSplit(c, Step(c, s, e));
    }
  }

  predicate Next(c: Config, s: Slot, e: Event, t: Slot) {
    Enabled(s, e) && t == Step(c, s, e)
  }

  /** A run spelled out state by state. */
  predicate Trace(c: Config, ss: seq<Slot>, es: seq<Event>) {
    |ss| == |es| + 1 && forall i :: 0 <= i < |es| ==> Next(c, ss[i], es[i], ss[i + 1])
  }

  lemma {:induction false} TraceRuns(c: Config, ss: seq<Slot>, es: seq<Event>)
    requires Trace(c, ss, es)
    ensures Possible(c, ss[0], es) && Run(c, ss[0], es) == ss[|es|]
    decreases |es|
  {
    if es != [] {
      assert Next(c, ss[0], es[0], ss[1]);
      assert Trace(c, ss[1..], es[1..]) by {
        forall i | 0 <= i < |es[1..]| ensures Next(c, ss[1..][i], es[1..][i], ss[1..][i + 1]) {
          assert Next(c, ss[i + 1], es[i + 1], ss[i + 2]);
        }
      }
      TraceRuns(c, ss[1..], es[1..]);
    }
  }

  /** A slot at rest: nothing outstanding but its accept, no file open. */
  predicate AtRest(s: Slot) {
    && s.net.accepts > 0 && s.net.receives == 0 && s.net.cancelled == 0
    && !s.file.open && s.file.mutex == 0
  }

  /** A slot that receives. */
  predicate Receiving(s: Slot) {
    && s.net.receives == 1 && s.net.cancelled == 0 && s.net.timer.Armed?
    && !s.file.open && s.file.mutex == 0
  }

  /** A write outstanding, the connection timer closes the connection. */
  lemma TimerDuringWrite(c: Config, s: Slot) returns (ss: seq<Slot>)
    requires Receiving(s)
    ensures Trace(c, ss, [ReceiveDone(1, true), ConnectionTimer])
    ensures ss[0] == s && ss[2].file.writing == Some(1)
    ensures ss[2].net.receives == 0 && ss[2].net.cancelled == 0
    ensures ss[2].net.disconnects == s.net.disconnects + 1 && ss[2].net.accepts == s.net.accepts
  {
    var t := Step(c, s, ReceiveDone(1, true));
    ss := [s, t, Step(c, t, ConnectionTimer)];
  }

  /** The write completes late, and starts a receive on a socket that is being disconnected. */
  lemma LateReceive(c: Config, t: Slot) returns (ss: seq<Slot>)
    requires t.file.writing == Some(1)
    requires t.net.receives == 0 && t.net.cancelled == 0 && t.net.disconnects > 0
    ensures Trace(c, ss, [WriteDone(1, true), ReceiveFails, DisconnectDone, DisconnectDone])
    ensures ss[0] == t && ss[4].net.accepts == t.net.accepts + 2
  {
    var u := Step(c, t, WriteDone(1, true));
    var v := Step(c, u, ReceiveFails);
    var w := Step(c, v, DisconnectDone);
    ss := [t, u, v, w, Step(c, w, DisconnectDone)];
  }

  lemma AcceptThenReceive(c: Config, s: Slot) returns (t: Slot)
    requires AtRest(s)
    ensures Next(c, s, AcceptDone(true), t) && Receiving(t) && t.net.accepts == s.net.accepts - 1
  {
    t := Step(c, s, AcceptDone(true));
  }

  /** Traces end to end. */
  lemma TracesJoin(c: Config, ss: seq<Slot>, es: seq<Event>, ts: seq<Slot>, fs: seq<Event>)
    requires Trace(c, ss, es) && Trace(c, ts, fs) && ts[0] == ss[|es|]
    ensures Trace(c, ss + ts[1..], es + fs)
  {
    forall i | 0 <= i < |es + fs| ensures Next(c, (ss + ts[1..])[i], (es + fs)[i], (ss + ts[1..])[i + 1]) {
      if i < |es| {
        assert Next(c, ss[i], es[i], ss[i + 1]);
      } else {
        assert Next(c, ts[i - |es|], fs[i - |es|], ts[i - |es| + 1]);
      }
    }
  }

  /** The connection timer during a write, from any slot at rest: one accept more than before. */
  lemma TimerSplits(c: Config, s: Slot)
    requires AtRest(s)
    ensures var es := [AcceptDone(true)] + [ReceiveDone(1, true), ConnectionTimer]
                      + [WriteDone(1, true), ReceiveFails, DisconnectDone, DisconnectDone];
            Possible(c, s, es) && Run(c, s, es).net.accepts == s.net.accepts + 1
  {
    var t := AcceptThenReceive(c, s);
    var es := [ReceiveDone(1, true), ConnectionTimer];
    var fs := [WriteDone(1, true), ReceiveFails, DisconnectDone, DisconnectDone];
    var ss := TimerDuringWrite(c, t);
    var ts := LateReceive(c, ss[2]);
    TracesJoin(c, [s, t], [AcceptDone(true)], ss, es);
    TracesJoin(c, [s, t] + ss[1..], [AcceptDone(true)] + es, ts, fs);
    TraceRuns(c, [s, t] + ss[1..] + ts[1..], [AcceptDone(true)] + es + fs);
  }

  /**
   The connection timer during a write, in full: the write's completion starts a receive on a socket
   that is being disconnected; its failure disconnects the socket again, and the slot accepts twice.
   */
  lemma TimerDuringWriteSplitsTheChain(c: Config, buf: seq<byte>, now: nat)
    ensures var es := [AcceptDone(true)] + [ReceiveDone(1, true), ConnectionTimer]
                      + [WriteDone(1, true), ReceiveFails, DisconnectDone, DisconnectDone];
            && Possible(c, Initial(buf, now), es)
            && Run(c, Initial(buf, now), es).net.accepts == 2
  {
    TimerSplits(c, Initial(buf, now));
  }

  /** A cancelled receive that fails by itself, from any slot at rest: one accept more than before. */
  lemma FailureSplits(c: Config, s: Slot)
    requires AtRest(s)
    ensures var es := [AcceptDone(true)] + [ConnectionTimer, CancelledReceiveFails, DisconnectDone, DisconnectDone];
            Possible(c, s, es) && Run(c, s, es).net.accepts == s.net.accepts + 1
  {
    var t := AcceptThenReceive(c, s);
    var ss := FailedCancel(c, t);
    var es := [ConnectionTimer, CancelledReceiveFails, DisconnectDone, DisconnectDone];
    TracesJoin(c, [s, t], [AcceptDone(true)], ss, es);
    TraceRuns(c, [s, t] + ss[1..], [AcceptDone(true)] + es);
  }

  lemma FailedCancel(c: Config, s: Slot) returns (ss: seq<Slot>)
    requires Receiving(s)
    ensures Trace(c, ss, [ConnectionTimer, CancelledReceiveFails, DisconnectDone, DisconnectDone])
    ensures ss[0] == s && ss[4].net.accepts == s.net.accepts + 2
  {
    var t := Step(c, s, ConnectionTimer);
    var u := Step(c, t, CancelledReceiveFails);
    var v := Step(c, u, DisconnectDone);
    ss := [s, t, u, v, Step(c, v, DisconnectDone)];
  }

  /** A cancelled receive that fails by itself, in full: two accepts outstanding on one socket. */
  lemma FailedCancelAcceptsTwice(c: Config, buf: seq<byte>, now: nat)
    ensures var es := [AcceptDone(true)] + [ConnectionTimer, CancelledReceiveFails, DisconnectDone, DisconnectDone];
            && Possible(c, Initial(buf, now), es)
            && Run(c, Initial(buf, now), es).net.accepts == 2
  {
    FailureSplits(c, Initial(buf, now));
  }
}
