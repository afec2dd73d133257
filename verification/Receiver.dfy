/**
 The receiver connection as the object that keeps it, its fields updated in place. Each method is
 tied to its handler in ReceiverSpec; `Drive` runs any orderly schedule of completions and timers.
 */
module Receiver {
  import opened Basics
  import S = ReceiverSpec
  import R = ReceiverRuns

  /**
   `receiver::connection`. `net` stands for the socket and the connection timer, `disk` and `now` for
   the directories and the clock; the rest are the members of the class. History is ghost.
   */
  class Connection {
    const config: S.Config
    const buf: array<byte>

    var net: S.Net
    var connectionMutex: uint32

    var fileOpen: bool
    var fileMutex: uint32
    var nfile: nat
    var filesize: uint64
    var creation: nat
    var fileTimer: Option<nat>
    var writing: Option<nat>
    var disk: S.Disk
    ghost var openedAt: nat
    ghost var stuck: set<nat>

    var now: nat
    ghost var arrived: seq<byte>
    ghost var stored: seq<byte>
    ghost var lost: nat

    constructor (config: S.Config, now: nat)
      ensures Valid() && this.config == config && fresh(buf) && State() == S.Initial(buf[..], now)
    {
      this.config := config;
      buf := new byte[S.BUFFER_SIZE];
      net, connectionMutex := S.Net(0, 0, 0, 0, S.Disarmed), 0;
      fileOpen, fileMutex, nfile, filesize, creation := false, 0, 0, 0, 0;
      fileTimer, writing, disk, openedAt, stuck := None, None, S.Disk(map[], map[]), 0, {};
      this.now := now;
      arrived, stored, lost := [], [], 0;
      new;
      Accept();
    }

    ghost function File(): S.Store
      reads `fileOpen, `fileMutex, `nfile, `filesize, `creation, `fileTimer, `writing, `disk, `openedAt, `stuck
    {
      S.Store(fileOpen, fileMutex, nfile, filesize, creation, fileTimer, writing, disk, openedAt, stuck)
    }

    ghost function State(): S.Slot
      reads this, buf
    {
      S.Slot(net, File(), buf[..], now, arrived, stored, lost)
    }

    /** Between handlers the connection lock is free. */
    ghost predicate Valid()
      reads `connectionMutex
    {
      buf.Length == S.BUFFER_SIZE && connectionMutex == 0
    }

    method Accept()
      modifies `net
      ensures net == S.Accept(old(net))
    {
      net := net.(accepts := net.accepts + 1);
    }

    method Receive()
      modifies `net
      ensures net == S.Receive(old(net))
    {
      net := net.(timer := S.Armed);
      net := net.(receives := net.receives + 1);
    }

    method OpenFile(opens: bool) returns (ok: bool)
      modifies `fileOpen, `nfile, `filesize, `creation, `fileTimer, `disk, `openedAt
      ensures File() == S.OpenFile(config, old(File()), now, opens) && ok == opens
    {
      nfile := nfile + 1;
      if opens {
        disk := disk.(tmp := disk.tmp[nfile := S.TmpFile(disk, nfile)]);
        fileOpen := true;
        filesize := 0;
        fileTimer := Some(now + config.Age());
        openedAt := now;
        creation := now / S.MICROS;
      }
      ok := opens;
    }

    method EnsureOpen(opens: bool) returns (ok: bool)
      modifies `fileOpen, `nfile, `filesize, `creation, `fileTimer, `disk, `openedAt
      ensures File() == S.Ready(config, old(File()), now, opens) && ok == fileOpen
    {
      if fileOpen {
        ok := true;
      } else {
        ok := OpenFile(opens);
      }
    }

    /** The compare-and-swap finds the file lock free: handlers run one at a time. */
    method WriteFile(len: nat, opens: bool)
      requires fileMutex == 0
      modifies `fileOpen, `nfile, `filesize, `creation, `fileTimer, `disk, `openedAt, `fileMutex, `writing, `lost
      modifies `net
      ensures State() == S.WriteFile(config, old(State()), len, opens)
    {
      fileMutex := 1;
      var ok := EnsureOpen(opens);
      if ok {
        writing := Some(len);
      } else {
        GiveUp(len);
      }
    }

    /** The file could not be opened. */
    method GiveUp(len: nat)
      modifies `fileMutex, `lost, `net
      ensures File() == S.Unlocked(old(File())) && lost == old(lost) + len
      ensures net == S.CloseConnection(old(net), true)
    {
      UnlockFile();
      lost := lost + len;
      CloseConnection(true);
    }

    method CloseFile(cancelTimer: bool)
      modifies `fileTimer, `fileOpen
      ensures File() == S.CloseFile(old(File()), cancelTimer)
    {
      if cancelTimer {
        fileTimer := None;
      }
      fileOpen := false;
    }

    method CloseConnection(cancelTimer: bool)
      modifies `net
      ensures net == S.CloseConnection(old(net), cancelTimer)
    {
      if cancelTimer {
        net := net.(timer := S.Disarmed);
      }
      net := net.(receives := 0, cancelled := net.cancelled + net.receives);
      net := net.(disconnects := net.disconnects + 1);
    }

    method MoveFile(moves: bool)
      modifies `disk, `stuck
      ensures File() == S.MoveFile(old(File()), moves)
    {
      if moves && nfile in disk.tmp {
        disk := S.Disk(disk.tmp - {nfile}, disk.final[nfile := disk.tmp[nfile]]);
      } else {
        stuck := stuck + {nfile};
      }
    }

    method UnlockFile()
      modifies `fileMutex
      ensures File() == S.Unlocked(old(File()))
    {
      fileMutex := Decrement(fileMutex);
    }

    /** What a failed write makes of its file. */
    method Discard(moves: bool)
      modifies `fileOpen, `fileTimer, `writing, `disk, `stuck
      ensures File() == S.Discarded(old(File()), moves)
    {
      writing := None;
      CloseFile(true);
      if filesize > 0 {
        MoveFile(moves);
      } else {
        disk := disk.(tmp := disk.tmp - {nfile});
      }
    }

    method ErrorWritingFile(moves: bool)
      requires writing.Some?
      modifies `fileOpen, `fileTimer, `writing, `disk, `stuck, `fileMutex, `lost
      modifies `net
      ensures State() == S.ErrorWritingFile(old(State()), moves)
    {
      lost := lost + writing.value;
      Discard(moves);
      UnlockFile();
      CloseConnection(true);
    }

    method Received(transferred: nat, opens: bool)
      requires fileMutex == 0 && transferred <= buf.Length
      modifies this
      ensures State() ==
              var s := old(State()).(received := old(arrived) + S.Chunk(buf[..], transferred));
              if transferred > 0 then S.WriteFile(config, s, transferred, opens)
              else s.(net := S.CloseConnection(s.net, true))
      ensures connectionMutex == old(connectionMutex)
    {
      arrived := arrived + buf[..transferred];
      if transferred > 0 {
        WriteFile(transferred, opens);
      } else {
        CloseConnection(true);
      }
    }

    /** The OS appends what it wrote; the handler starts by adding it to the size. */
    method Append(count: nat)
      requires writing.Some? && count <= writing.value && count <= buf.Length
      modifies `disk, `stored, `lost, `writing, `filesize
      ensures File() == S.Appended(old(File()), S.Chunk(buf[..], count))
      ensures stored == old(stored) + S.Chunk(buf[..], count) && lost == old(lost + writing.value) - count
    {
      disk := disk.(tmp := disk.tmp[nfile := S.TmpFile(disk, nfile) + buf[..count]]);
      stored, lost := stored + buf[..count], lost + writing.value - count;
      writing := None;
      filesize := ((filesize as nat + count) % 0x1_0000_0000_0000_0000) as uint64;
    }

    method Rotate(moves: bool)
      modifies `fileOpen, `fileTimer, `disk, `stuck
      ensures File() == S.Rotated(config, old(File()), now, moves)
    {
      if filesize >= config.maxfilesize || creation + config.maxfileage as nat <= now / S.MICROS {
        CloseFile(true);
        MoveFile(moves);
      }
    }

    method Written(count: nat, moves: bool)
      requires writing.Some? && count <= writing.value && count <= buf.Length
      modifies `fileOpen, `fileTimer, `writing, `filesize, `disk, `stuck, `fileMutex, `stored, `lost
      modifies `net
      ensures State() == S.Written(config, old(State()), count, moves)
    {
      Append(count);
      Rotate(moves);
      UnlockFile();
      Receive();
    }

    method Disconnected()
      modifies `net
      ensures net == S.Accept(old(net))
    {
      Accept();
    }

    /** Does not cancel the timer whose callback it is; gives up if the connection is locked. */
    method OnConnectionTimer()
      modifies `net, `connectionMutex
      ensures connectionMutex == old(connectionMutex)
      ensures net == if old(connectionMutex) == 0 then S.CloseConnection(old(net), false) else old(net)
    {
      if connectionMutex == 0 {
        connectionMutex := 1;
        CloseConnection(false);
        connectionMutex := Decrement(connectionMutex);
      }
    }

    /** Does not cancel the timer whose callback it is; gives up if the file is locked. */
    method OnFileTimer(moves: bool)
      modifies `fileTimer, `fileOpen, `fileMutex, `disk, `stuck
      ensures File() == S.FileTimerFires(old(File()), moves)
    {
      if fileMutex == 0 {
        fileMutex := 1;
        CloseFile(false);
        MoveFile(moves);
        UnlockFile();
      }
    }

    /** `complete` for a receive: the data is dropped if the connection is locked. */
    method OnReceive(count: nat, opens: bool)
      requires fileMutex == 0 && count <= buf.Length
      modifies this
      ensures connectionMutex == old(connectionMutex)
      ensures State() ==
              if old(connectionMutex) != 0 then old(State())
              else
                var s := old(State()).(received := old(arrived) + S.Chunk(buf[..], count));
                if count > 0 then S.WriteFile(config, s, count, opens)
                else s.(net := S.CloseConnection(s.net, true))
    {
      if connectionMutex == 0 {
        connectionMutex := 1;
        Received(count, opens);
        connectionMutex := Decrement(connectionMutex);
      }
    }

    method OnSocket(e: S.Event)
      requires connectionMutex == 0 && S.OnSocket(e) && S.NetEnabled(net, e)
      modifies `net, `connectionMutex
      ensures connectionMutex == 0 && net == S.NetStep(old(net), e)
    {
      match e
      case AcceptDone(accepted) =>
        net := net.(accepts := net.accepts - 1);
        if accepted { Receive(); } else { Accept(); }
      case ReceiveFails =>
        net := net.(receives := net.receives - 1);
        CloseConnection(true);
      case ReceiveAborted =>
        net := net.(cancelled := net.cancelled - 1);
      case CancelledReceiveFails =>
        net := net.(cancelled := net.cancelled - 1);
        CloseConnection(true);
      case DisconnectDone =>
        net := net.(disconnects := net.disconnects - 1);
        Disconnected();
      case ConnectionTimer =>
        net := net.(timer := S.Disarmed);
        OnConnectionTimer();
    }

    method FinishReceive(count: nat, opens: bool)
      requires Valid() && S.Enabled(State(), S.ReceiveDone(count, opens))
      modifies this
      ensures Valid() && State() == S.Step(config, old(State()), S.ReceiveDone(count, opens))
    {
      net := net.(receives := net.receives - 1);
      OnReceive(count, opens);
    }

    /** `complete` for the file. */
    method FinishWrite(e: S.Event)
      requires S.Enabled(State(), e) && ((e.WriteDone? && e.count <= buf.Length) || e.WriteFails?)
      modifies `fileOpen, `fileTimer, `writing, `filesize, `disk, `stuck, `fileMutex, `stored, `lost
      modifies `net
      ensures State() == S.Step(config, old(State()), e)
    {
      match e
      case WriteDone(count, moves) => Written(count, moves);
      case WriteFails(moves) => ErrorWritingFile(moves);
    }

    method ExpireFileTimer(moves: bool)
      modifies `fileTimer, `fileOpen, `fileMutex, `disk, `stuck
      ensures File() == S.FileTimerFires(old(File()).(timer := None), moves)
    {
      fileTimer := None;
      OnFileTimer(moves);
    }

    /** The OS's own part of a completion, then `complete`, or the timer's callback. */
    method Dispatch(e: S.Event)
      requires Valid() && R.Chained(State()) && S.Enabled(State(), e)
      modifies this, buf
      ensures Valid() && State() == S.Step(config, old(State()), e)
    {
      match e
      case ReceiveDone(count, opens) => FinishReceive(count, opens);
      case WriteDone(_, _) => FinishWrite(e);
      case WriteFails(_) => FinishWrite(e);
      case FileTimer(moves) => ExpireFileTimer(moves);
      case Tick(micros) =>
        now := now + micros;
      case OsFills(contents) => Fill(contents);
      case _ => OnSocket(e);
    }

    method Fill(contents: seq<byte>)
      requires |contents| == buf.Length
      modifies buf
      ensures buf[..] == contents
    {
      forall i | 0 <= i < buf.Length { buf[i] := contents[i]; }
    }

    /** Any orderly schedule, from any state that keeps the invariant. */
    method Drive(es: seq<S.Event>)
      requires config.Valid() && Valid() && R.Inv(config, State()) && S.OrderlyRun(config, State(), es)
      modifies this, buf
      ensures Valid() && S.Possible(config, old(State()), es)
      ensures R.Inv(config, State()) && State() == S.Run(config, old(State()), es)
    {
      R.RunKeepsInv(config, State(), es);
      for i := 0 to |es|
        invariant Valid() && R.Inv(config, State()) && S.OrderlyRun(config, State(), es[i..])
        invariant S.Possible(config, State(), es[i..])
        invariant S.Run(config, State(), es[i..]) == S.Run(config, old(State()), es)
      {
        assert es[i..][0] == es[i] && es[i..][1..] == es[i + 1..];
        R.StepKeepsInv(config, State(), es[i]);
        Dispatch(es[i]);
      }
    }
  }
}
