/**
 What the receiver does, told from its completions alone: the bytes received, stored and dropped, the fate
 of every file, and what each completion leads to.
 */
module ReceiverStreams {
  import opened Basics
  import opened ReceiverSpec
  import opened ReceiverRuns

  // The bytes.

  /** The first bytes of the buffer after this completion. */
  function Filled(buf: seq<byte>, e: Event): seq<byte> {
    if e.OsFills? then e.contents else buf
  }

  /** A receive of n bytes adds the first n in the buffer. */
  function Arriving(buf: seq<byte>, arrived: seq<byte>, e: Event): seq<byte> {
    if e.ReceiveDone? && e.count <= |buf| then arrived + buf[..e.count] else arrived
  }

  /** So does a write of n bytes to what is stored. */
  function Storing(buf: seq<byte>, stored: seq<byte>, e: Event): seq<byte> {
    if e.WriteDone? && e.count <= |buf| then stored + buf[..e.count] else stored
  }

  function Arrived(buf: seq<byte>, arrived: seq<byte>, es: seq<Event>): seq<byte>
    decreases |es|
  {
    if es == [] then arrived else Arrived(Filled(buf, es[0]), Arriving(buf, arrived, es[0]), es[1..])
  }

  function Stored(buf: seq<byte>, stored: seq<byte>, es: seq<Event>): seq<byte>
    decreases |es|
  {
    if es == [] then stored else Stored(Filled(buf, es[0]), Storing(buf, stored, es[0]), es[1..])
  }

  /** What a completion drops: all of a receive whose file cannot be opened or written, the rest of a short write. */
  function Drops(s: Slot, e: Event): nat {
    match e
    case ReceiveDone(count, opens) => if s.file.open || opens then 0 else count
    case WriteDone(count, _) =>
      if s.file.writing.Some? && count <= s.file.writing.value then s.file.writing.value - count else 0
    case WriteFails(_) => if s.file.writing.Some? then s.file.writing.value else 0
    case _ => 0
  }

  lemma StepStreams(c: Config, s: Slot, e: Event)
    requires Chained(s) && Enabled(s, e)
    ensures var t := Step(c, s, e);
            && t.buf == Filled(s.buf, e)
            && t.received == Arriving(s.buf, s.received, e) && t.stored == Storing(s.buf, s.stored, e)
            && t.lost == s.lost + Drops(s, e)
  {
  }

  /** All that a run drops. */
  ghost function Dropped(c: Config, s: Slot, es: seq<Event>): nat
    requires Possible(c, s, es)
    decreases |es|
  {
    if es == [] then 0 else Drops(s, es[0]) + Dropped(c, Step(c, s, es[0]), es[1..])
  }

  lemma {:induction false} RunStreams(c: Config, s: Slot, es: seq<Event>)
    requires c.Valid() && Inv(c, s) && OrderlyRun(c, s, es) && Possible(c, s, es)
    ensures var t := Run(c, s, es);
            && t.received == Arrived(s.buf, s.received, es) && t.stored == Stored(s.buf, s.stored, es)
            && t.lost == s.lost + Dropped(c, s, es)
    decreases |es|
  {
    if es != [] {
      StepStreams(c, s, es[0]);
      StepKeepsInv(c, s, es[0]);
      RunStreams(c, Step(c, s, es[0]), es[1..]);
    }
  }

  /** The files of a slot, in number order, hold what its writes wrote; the rest was dropped or is being written. */
  predicate Accounts(t: Slot, arrived: seq<byte>, stored: seq<byte>, dropped: nat) {
    && Contents(t.file.disk, t.file.nfile) == stored
    && |arrived| == |stored| + dropped + |InFlight(t)|
    && (dropped == 0 ==> arrived == stored + InFlight(t))
  }

  lemma InvAccounts(c: Config, t: Slot)
    requires Inv(c, t)
    ensures Accounts(t, t.received, t.stored, t.lost)
  {
  }

  lemma RunAccounts(c: Config, s: Slot, es: seq<Event>)
    requires c.Valid() && Inv(c, s) && OrderlyRun(c, s, es) && Possible(c, s, es)
    ensures Accounts(Run(c, s, es), Arrived(s.buf, s.received, es), Stored(s.buf, s.stored, es),
                     s.lost + Dropped(c, s, es))
  {
    RunKeepsInv(c, s, es);
    RunStreams(c, s, es);
    InvAccounts(c, Run(c, s, es));
  }

  lemma QuietStart(s: Slot)
    requires Starts(s)
    ensures s.received == s.stored == [] && s.lost == 0 && s.file.stuck == {}
  {
  }

  /**
   The files, from the completions alone: after any orderly run of a new slot they hold, in number order, the
   first n bytes of the buffer at each write of n. If nothing was dropped that is, with the chunk being
   written, the first n bytes of the buffer at each receive of n, across all sessions.
   */
  lemma FilesFollowTheCompletions(c: Config, s: Slot, es: seq<Event>)
    requires c.Valid() && Starts(s) && OrderlyRun(c, s, es) && Possible(c, s, es)
    ensures Accounts(Run(c, s, es), Arrived(s.buf, [], es), Stored(s.buf, [], es), Dropped(c, s, es))
  {
    StartKeepsInv(c, s);
    QuietStart(s);
    RunAccounts(c, s, es);
  }

  // The files.

  /** A file that is closed is moved away, or stays in its place, booked as stuck. */
  predicate Closed(f: Store, g: Store, contents: seq<byte>, moves: bool) {
    && !g.open && g.timer.None? && g.nfile == f.nfile
    && (if moves then
          && f.nfile in g.disk.final && g.disk.final[f.nfile] == contents && f.nfile !in g.disk.tmp
          && g.stuck == f.stuck
        else
          && f.nfile in g.disk.tmp && g.disk.tmp[f.nfile] == contents && f.nfile !in g.disk.final
          && g.stuck == f.stuck + {f.nfile})
  }

  /** A write leaves its file open exactly while it is small and young enough; otherwise the file is moved. */
  lemma WriteLeaves(c: Config, s: Slot, count: nat, moves: bool)
    requires c.Valid() && Inv(c, s) && Enabled(s, WriteDone(count, moves))
    ensures var f, g := s.file, Step(c, s, WriteDone(count, moves)).file;
            var contents := TmpFile(f.disk, f.nfile) + Chunk(s.buf, count);
            && (g.open <==> |contents| < c.maxfilesize as nat && s.now / MICROS < f.creation + c.maxfileage as nat)
            && (g.open ==> g.nfile == f.nfile && g.nfile in g.disk.tmp && g.disk.tmp[g.nfile] == contents
                           && g.stuck == f.stuck && g.timer == f.timer && g.size as nat == |contents|)
            && (!g.open ==> Closed(f, g, contents, moves))
  {
    AppendKeepsFiles(c, s.file, Chunk(s.buf, count));
  }

  /** A failed write closes its file; it is moved if anything is in it, and deleted if not. */
  lemma FailureLeaves(c: Config, s: Slot, moves: bool)
    requires Inv(c, s) && Enabled(s, WriteFails(moves))
    ensures var f, g := s.file, Step(c, s, WriteFails(moves)).file;
            if TmpFile(f.disk, f.nfile) != [] then Closed(f, g, TmpFile(f.disk, f.nfile), moves)
            else
              && !g.open && g.timer.None? && g.nfile == f.nfile && g.stuck == f.stuck
              && f.nfile !in g.disk.tmp && f.nfile !in g.disk.final
  {
  }

  /** The file timer closes and moves the file if the lock is free, and else leaves everything alone. */
  lemma TimerLeaves(c: Config, s: Slot, moves: bool)
    requires Inv(c, s) && Enabled(s, FileTimer(moves))
    ensures var f, g := s.file, Step(c, s, FileTimer(moves)).file;
            if f.mutex == 0 then Closed(f, g, TmpFile(f.disk, f.nfile), moves) && g.mutex == 0
            else g == f.(timer := None)
  {
  }

  /** Data received with no file open takes the next number, whatever comes of it; a new file starts empty. */
  lemma OpenTakesTheNextNumber(c: Config, s: Slot, count: nat, opens: bool)
    requires Inv(c, s) && Enabled(s, ReceiveDone(count, opens)) && 0 < count
    ensures var f, g := s.file, Step(c, s, ReceiveDone(count, opens)).file;
            && g.stuck == f.stuck && g.disk.final == f.disk.final
            && (if f.open then
                  g == f.(mutex := 1, writing := Some(count))
                else
                  && g.nfile == f.nfile + 1 && g.open == opens
                  && (if opens then
                        && g.writing == Some(count) && g.mutex == 1
                        && g.disk.tmp == f.disk.tmp[g.nfile := []] && g.nfile !in f.disk.tmp
                        && g.size == 0 && g.creation == s.now / MICROS && g.openedAt == s.now
                        && g.timer == Some(s.now + c.maxfileage as nat * MICROS)
                      else g.writing.None? && g.mutex == 0 && g.disk == f.disk && g.timer.None?))
  {
  }

  /** OPEN_ALWAYS: a file that is there already keeps what is in it. */
  lemma OpenKeepsWhatIsThere(c: Config, f: Store, now: nat)
    ensures var n, tmp := f.nfile + 1, OpenFile(c, f, now, true).disk.tmp;
            tmp.Keys == f.disk.tmp.Keys + {n} && forall m :: m in f.disk.tmp ==> tmp[m] == f.disk.tmp[m]
  {
  }

  /** The answer to a move, where the event holds one. */
  predicate MovesFail(e: Event) {
    (e.WriteDone? || e.WriteFails? || e.FileTimer?) && !e.moves
  }

  lemma StepStuck(c: Config, s: Slot, e: Event)
    requires c.Valid() && Inv(c, s) && Enabled(s, e) && !MovesFail(e)
    ensures Step(c, s, e).file.stuck == s.file.stuck
  {
    match e
    case ReceiveDone(count, opens) => if count > 0 { OpenTakesTheNextNumber(c, s, count, opens); }
    case WriteDone(count, moves) => WriteLeaves(c, s, count, moves);
    case WriteFails(moves) => FailureLeaves(c, s, moves);
    case FileTimer(moves) => TimerLeaves(c, s, moves);
    case _ =>
  }

  lemma {:induction false} RunStuck(c: Config, s: Slot, es: seq<Event>)
    requires c.Valid() && Inv(c, s) && OrderlyRun(c, s, es) && Possible(c, s, es)
    requires forall i :: 0 <= i < |es| ==> !MovesFail(es[i])
    ensures Inv(c, Run(c, s, es)) && Run(c, s, es).file.stuck == s.file.stuck
    decreases |es|
  {
    if es != [] {
      StepStuck(c, s, es[0]);
      StepKeepsInv(c, s, es[0]);
      RunStuck(c, Step(c, s, es[0]), es[1..]);
    }
  }

  lemma InvMovedAway(c: Config, t: Slot, n: nat)
    requires Inv(c, t) && t.file.stuck == {} && n in t.file.disk.tmp
    ensures t.file.open && n == t.file.nfile
  {
    assert n in t.file.disk.tmp.Keys;
  }

  /** Where every move succeeds no file but the open one is left in the temporary directory. */
  lemma ClosedFilesMoveAway(c: Config, s: Slot, es: seq<Event>, n: nat)
    requires c.Valid() && Starts(s) && OrderlyRun(c, s, es) && Possible(c, s, es)
    requires forall i :: 0 <= i < |es| ==> !MovesFail(es[i])
    ensures var f := Run(c, s, es).file; f.stuck == {} && (n in f.disk.tmp ==> f.open && n == f.nfile)
  {
    StartKeepsInv(c, s);
    QuietStart(s);
    RunStuck(c, s, es);
    if n in Run(c, s, es).file.disk.tmp {
      InvMovedAway(c, Run(c, s, es), n);
    }
  }

  // The chain.

  /** What is outstanding after a completion, where it concerns the chain. */
  predicate LeadsOn(s: Slot, e: Event, t: Slot) {
    match e
    case AcceptDone(accepted) => if accepted then t.net.receives == 1 && t.net.timer.Armed? else t.net.accepts == 1
    case ReceiveDone(count, opens) =>
      if count > 0 && (s.file.open || opens) then t.file.writing == Some(count)
      else t.net.disconnects == 1 && t.net.timer.Disarmed?
    case ReceiveFails => t.net.disconnects == 1 && t.net.timer.Disarmed? && t.net.cancelled == 0
    case ReceiveAborted => t.net.disconnects == 1 && t.net.cancelled == 0
    case WriteDone(_, _) => t.net.receives == 1 && t.net.timer.Armed?
    case WriteFails(_) => t.net.disconnects == 1 && t.net.timer.Disarmed?
    case DisconnectDone => t.net.accepts == 1
    case ConnectionTimer => t.net.disconnects == 1 && t.net.cancelled == s.net.receives == 1
    case _ => t.net == s.net && t.file.writing == s.file.writing
  }

  lemma InvLeadsOn(c: Config, s: Slot, e: Event)
    requires Chained(s) && Enabled(s, e) && Orderly(s, e)
    ensures LeadsOn(s, e, Step(c, s, e))
  {
  }

  /**
   The chain, link by link: an accept leads to a receive, a receive to the write of all its bytes, a write to
   a receive, and the end of the stream, an error, a failed open or write and the connection timer all to a
   disconnect, which leads to an accept.
   */
  lemma ChainLeadsOn(c: Config, s: Slot, e: Event)
    requires Reachable(c, s) && Enabled(s, e) && Orderly(s, e)
    ensures LeadsOn(s, e, Step(c, s, e))
  {
    ReachableKeepsInv(c, s);
    InvLeadsOn(c, s, e);
  }

  /** An armed file timer finds a file open: closing a file always stops it. */
  lemma FileTimerHasAFile(c: Config, t: Slot)
    requires Reachable(c, t) && t.file.timer.Some?
    ensures t.file.open && t.file.timer.value == t.file.openedAt + c.maxfileage as nat * MICROS
  {
    ReachableKeepsInv(c, t);
  }
}
