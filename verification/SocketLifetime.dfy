/**
 The two owned resources of `net::async::stream::socket`: the OS handle and the thread-pool I/O
 object. `created` and `closed` count the handles made by WSASocket and released by closesocket
 over the whole life of the C++ object.
 */
module SocketLifetime {
  import opened Basics

  datatype Lifetime = Lifetime(handle: bool, io: bool, created: nat, closed: nat)

  /** How far `socket::init` gets. */
  datatype Init = Ready | NoSocket | NoModes | NoIo

  const UNUSED := Lifetime(false, false, 0, 0)

  /** `socket::init`: the new handle overwrites the member, whatever was there before. */
  function Initialize(l: Lifetime, init: Init): Lifetime {
    match init
    case Ready => l.(handle := true, io := true, created := l.created + 1)
    case NoSocket => l.(handle := false)
    case NoModes => l.(handle := false, created := l.created + 1, closed := l.closed + 1)
    case NoIo => l.(handle := false, io := false, created := l.created + 1, closed := l.closed + 1)
  }

  /** `socket::close`: closing an invalid handle releases nothing. */
  function Close(l: Lifetime): Lifetime {
    l.(handle := false, io := false, closed := l.closed + Ind(l.handle))
  }

  /**
   At most one live OS socket, every earlier one closed exactly once, and the I/O object
   present exactly while the handle is valid.
   */
  predicate Sound(l: Lifetime) {
    l.io == l.handle && l.created == l.closed + Ind(l.handle)
  }

  /**
   Whatever init answers, it keeps the discipline exactly when it is entered with no handle:
   entered with a live one, the old handle is overwritten and never closed.
   */
  lemma InitNeedsNoHandle(l: Lifetime, init: Init)
    requires Sound(l)
    ensures Sound(Initialize(l, init)) <==> !l.handle
  {
    if l.handle {
      assert Initialize(l, init).created > Initialize(l, init).closed + Ind(Initialize(l, init).handle);
    }
  }

  /**
   A handle and an I/O object come out of init exactly when it succeeds; every handle the OS gave is counted,
   and closed again unless init succeeds.
   */
  lemma InitTells(l: Lifetime, init: Init)
    requires !l.handle && !l.io
    ensures var l' := Initialize(l, init);
            && (l'.handle <==> init.Ready?) && (l'.io <==> init.Ready?)
            && l'.created == l.created + Ind(!init.NoSocket?)
            && l'.closed == l.closed + Ind(init.NoModes? || init.NoIo?)
  {
  }
}
