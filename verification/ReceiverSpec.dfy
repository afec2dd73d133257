/**
 The receiver slot as a state machine: one `receiver::connection`, the operations the OS has in hand
 for it, its two timers, its files on disk and the clock. Every completion handler and every timer
 callback is one step. A call that starts an operation makes it outstanding; its completion is a
 later step.
 */
module ReceiverSpec {
  import opened Basics

  const BUFFER_SIZE := 32768

  /** Microseconds in a second: the timers count the former, `time` the latter. */
  const MICROS := 1_000_000

  /** The limits `receiver::create` accepts. */
  datatype Config = Config(maxfilesize: uint64, maxfileage: uint64) {
    predicate Valid() {
      4096 <= maxfilesize <= 1024 * 1024 * 1024 && 1 <= maxfileage <= 3600
    }

    function Age(): nat {
      maxfileage as nat * MICROS
    }
  }

  /** The slot's files in the two directories, by file number. */
  datatype Disk = Disk(tmp: map<nat, seq<byte>>, final: map<nat, seq<byte>>)

  datatype Timer = Armed | Disarmed

  /**
   The socket operations outstanding, and whether the connection timer is armed. `cancelled` counts
   receives that `cancel` has been called on.
   */
  datatype Net = Net(accepts: nat, receives: nat, cancelled: nat, disconnects: nat, timer: Timer)

  /**
   The file side: the members, the length of the write outstanding, the deadline in microseconds for
   which the file timer is armed, and the disk. History: the moment the open file's timer was armed,
   and the numbers of the files whose move failed.
   */
  datatype Store = Store(
    open: bool,
    mutex: uint32,
    nfile: nat,
    size: uint64,
    creation: nat,
    timer: Option<nat>,
    writing: Option<nat>,
    disk: Disk,
    openedAt: nat,
    stuck: set<nat>)

  /** History: the bytes received and stored by all sessions, and how many were dropped. */
  datatype Slot = Slot(
    net: Net,
    file: Store,
    buf: seq<byte>,
    now: nat,
    received: seq<byte>,
    stored: seq<byte>,
    lost: nat)

  /** `opens` and `moves` are how CreateFile and MoveFileEx will answer, if they are called. */
  datatype Event =
    | AcceptDone(accepted: bool)
    | ReceiveDone(count: nat, opens: bool)
    | ReceiveFails
    | ReceiveAborted
    | CancelledReceiveFails
    | WriteDone(count: nat, moves: bool)
    | WriteFails(moves: bool)
    | DisconnectDone
    | ConnectionTimer
    | FileTimer(moves: bool)
    | Tick(micros: nat)
    | OsFills(contents: seq<byte>)

  /** The first bytes of the buffer; what lies beyond it is not data. */
  function Chunk(buf: seq<byte>, count: nat): seq<byte> {
    if count <= |buf| then buf[..count] else []
  }

  function TmpFile(disk: Disk, n: nat): seq<byte> {
    if n in disk.tmp then disk.tmp[n] else []
  }

  // The handlers.

  function Accept(net: Net): Net {
    net.(accepts := net.accepts + 1)
  }

  function Receive(net: Net): Net {
    net.(timer := Armed, receives := net.receives + 1)
  }

  function CloseConnection(net: Net, cancelTimer: bool): Net {
    Net(net.accepts, 0, net.cancelled + net.receives, net.disconnects + 1,
        if cancelTimer then Disarmed else net.timer)
  }

  /** OPEN_ALWAYS: what is already in a file of that name stays there. */
  function OpenFile(c: Config, f: Store, now: nat, opens: bool): Store {
    var n := f.nfile + 1;
    if !opens then f.(nfile := n)
    else
      f.(nfile := n, open := true, size := 0, creation := now / MICROS,
         timer := Some(now + c.Age()), openedAt := now,
         disk := f.disk.(tmp := f.disk.tmp[n := TmpFile(f.disk, n)]))
  }

  function Ready(c: Config, f: Store, now: nat, opens: bool): Store {
    if f.open then f else OpenFile(c, f, now, opens)
  }

  function WriteFile(c: Config, s: Slot, len: nat, opens: bool): Slot {
    var f := Ready(c, s.file.(mutex := 1), s.now, opens);
    if f.open then s.(file := f.(writing := Some(len)))
    else
      s.(file := f.(mutex := Decrement(f.mutex)), net := CloseConnection(s.net, true), lost := s.lost + len)
  }

  function CloseFile(f: Store, cancelTimer: bool): Store {
    f.(timer := if cancelTimer then None else f.timer, open := false)
  }

  /** MOVEFILE_REPLACE_EXISTING: a file of that name in the final directory would be replaced. */
  function MoveFile(f: Store, moves: bool): Store {
    if moves && f.nfile in f.disk.tmp then
      f.(disk := Disk(f.disk.tmp - {f.nfile}, f.disk.final[f.nfile := f.disk.tmp[f.nfile]]))
    else
      f.(stuck := f.stuck + {f.nfile})
  }

  function DeleteFile(f: Store): Store {
    f.(disk := f.disk.(tmp := f.disk.tmp - {f.nfile}))
  }

  predicate TooBigOrTooOld(c: Config, f: Store, now: nat) {
    f.size >= c.maxfilesize || f.creation + c.maxfileage as nat <= now / MICROS
  }

  /** The OS appends what it wrote; the handler adds it to the size. */
  function Appended(f: Store, chunk: seq<byte>): Store {
    f.(writing := None, disk := f.disk.(tmp := f.disk.tmp[f.nfile := TmpFile(f.disk, f.nfile) + chunk]),
       size := ((f.size as nat + |chunk|) % 0x1_0000_0000_0000_0000) as uint64)
  }

  function Rotated(c: Config, f: Store, now: nat, moves: bool): Store {
    if TooBigOrTooOld(c, f, now) then MoveFile(CloseFile(f, true), moves) else f
  }

  function Unlocked(f: Store): Store {
    f.(mutex := Decrement(f.mutex))
  }

  function Written(c: Config, s: Slot, count: nat, moves: bool): Slot
    requires s.file.writing.Some? && count <= s.file.writing.value
  {
    var chunk := Chunk(s.buf, count);
    s.(file := Unlocked(Rotated(c, Appended(s.file, chunk), s.now, moves)), net := Receive(s.net),
       stored := s.stored + chunk, lost := s.lost + s.file.writing.value - count)
  }

  function Discarded(f: Store, moves: bool): Store {
    var closed := CloseFile(f.(writing := None), true);
    if closed.size > 0 then MoveFile(closed, moves) else DeleteFile(closed)
  }

  function ErrorWritingFile(s: Slot, moves: bool): Slot
    requires s.file.writing.Some?
  {
    s.(file := Unlocked(Discarded(s.file, moves)), net := CloseConnection(s.net, true),
       lost := s.lost + s.file.writing.value)
  }

  function FileTimerFires(f: Store, moves: bool): Store {
    if f.mutex == 0 then Unlocked(MoveFile(CloseFile(f.(mutex := 1), false), moves)) else f
  }

  /** Completions and timers that only concern the socket. */
  predicate OnSocket(e: Event) {
    || e.AcceptDone? || e.ReceiveFails? || e.ReceiveAborted? || e.CancelledReceiveFails?
    || e.DisconnectDone? || e.ConnectionTimer?
  }

  predicate NetEnabled(net: Net, e: Event)
    requires OnSocket(e)
  {
    match e
    case AcceptDone(_) => net.accepts > 0
    case ReceiveFails => net.receives > 0
    case ReceiveAborted => net.cancelled > 0
    case CancelledReceiveFails => net.cancelled > 0
    case DisconnectDone => net.disconnects > 0 && net.receives == 0 && net.cancelled == 0
    case ConnectionTimer => net.timer.Armed?
  }

  function NetStep(net: Net, e: Event): Net
    requires OnSocket(e) && NetEnabled(net, e)
  {
    match e
    case AcceptDone(accepted) =>
      var net' := net.(accepts := net.accepts - 1);
      if accepted then Receive(net') else Accept(net')
    case ReceiveFails => CloseConnection(net.(receives := net.receives - 1), true)
    case ReceiveAborted => net.(cancelled := net.cancelled - 1)
    case CancelledReceiveFails => CloseConnection(net.(cancelled := net.cancelled - 1), true)
    case DisconnectDone => Accept(net.(disconnects := net.disconnects - 1))
    case ConnectionTimer => CloseConnection(net.(timer := Disarmed), false)
  }

  function Step(c: Config, s: Slot, e: Event): Slot
    requires Enabled(s, e)
  {
    match e
    case ReceiveDone(count, opens) =>
      var s' := s.(net := s.net.(receives := s.net.receives - 1),
                   received := s.received + Chunk(s.buf, count));
      if count > 0 then WriteFile(c, s', count, opens) else s'.(net := CloseConnection(s'.net, true))
    case WriteDone(count, moves) => Written(c, s, count, moves)
    case WriteFails(moves) => ErrorWritingFile(s, moves)
    case FileTimer(moves) => s.(file := FileTimerFires(s.file.(timer := None), moves))
    case Tick(micros) => s.(now := s.now + micros)
    case OsFills(contents) => s.(buf := contents)
    case _ => s.(net := NetStep(s.net, e))
  }

  /**
   What the environment may do. A receive completes with data only if it was not cancelled; the
   write needs the file lock, so the receive that leads to it is handled when the lock is free; the
   disconnect completes after the socket's other operations; a timer fires no earlier than armed for.
   */
  predicate Enabled(s: Slot, e: Event) {
    match e
    case ReceiveDone(count, _) => s.net.receives > 0 && count <= BUFFER_SIZE && s.file.mutex == 0
    case WriteDone(count, _) => s.file.writing.Some? && count <= s.file.writing.value
    case WriteFails(_) => s.file.writing.Some?
    case FileTimer(_) => s.file.timer.Some? && s.file.timer.value <= s.now
    case Tick(_) => true
    case OsFills(contents) => s.net.receives + s.net.cancelled > 0 && |contents| == BUFFER_SIZE
    case _ => NetEnabled(s.net, e)
  }

  /**
   The two hypotheses the single chain relies on: the connection timer, which stays armed, does not
   fire while a file write is outstanding; and a cancelled receive is reported as aborted.
   */
  predicate Orderly(s: Slot, e: Event) {
    && (e.ConnectionTimer? ==> s.file.writing.None?)
    && !e.CancelledReceiveFails?
  }

  // Runs.

  ghost predicate Possible(c: Config, s: Slot, es: seq<Event>)
    decreases |es|
  {
    es == [] || (Enabled(s, es[0]) && Possible(c, Step(c, s, es[0]), es[1..]))
  }

  ghost function Run(c: Config, s: Slot, es: seq<Event>): Slot
    requires Possible(c, s, es)
    decreases |es|
  {
    if es == [] then s else Run(c, Step(c, s, es[0]), es[1..])
  }

  ghost predicate OrderlyRun(c: Config, s: Slot, es: seq<Event>)
    decreases |es|
  {
    es == [] || (Enabled(s, es[0]) && Orderly(s, es[0]) && OrderlyRun(c, Step(c, s, es[0]), es[1..]))
  }

  /** A slot just constructed, its first accept issued, with no file of its names on disk. */
  function Initial(buf: seq<byte>, now: nat): Slot {
    var file := Store(false, 0, 0, 0, 0, None, None, Disk(map[], map[]), 0, {});
    Slot(Accept(Net(0, 0, 0, 0, Disarmed)), file, buf, now, [], [], 0)
  }
}
