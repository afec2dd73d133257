/**
 `net::socket::address`: its text form, read by `build` and written by `to_string`. The two
 conversions of the C library are a parameter, assumed to undo each other.
 */
module SocketAddress {
  import opened Basics
  import opened Decimal
  import opened NumberParsing

  /** As Windows defines it; the 46 of POSIX would do as well. */
  const INET6_ADDRSTRLEN := 65
  const UNIX_PATH_MAX := 108

  /** A NUL-terminated string, without its terminator. */
  type CString = s: string | '\0' !in s witness ""

  type In4 = a: seq<byte> | |a| == 4 witness [0, 0, 0, 0]
  type In6 = a: seq<byte> | |a| == 16 witness [0, 0, 0, 0, 0, 0, 0, 0, 0, 0, 0, 0, 0, 0, 0, 0]

  /** `inet_pton` and `inet_ntop` for the two families. */
  datatype Inet = Inet(
    pton4: CString -> Option<In4>, ntop4: In4 -> CString,
    pton6: CString -> Option<In6>, ntop6: In6 -> CString)

  /** Presentation text: non-empty, within the buffers meant for it, and no bracket at the front. */
  predicate Presentable(s: string) {
    0 < |s| < INET6_ADDRSTRLEN && s[0] != '['
  }

  /** What is assumed of the C library. */
  ghost predicate Faithful(inet: Inet) {
    && (forall a :: inet.pton4(inet.ntop4(a)) == Some(a) && Presentable(inet.ntop4(a)))
    && (forall a :: inet.pton6(inet.ntop6(a)) == Some(a) && Presentable(inet.ntop6(a)))
    && (forall a :: inet.pton4(inet.ntop6(a)) == None)
  }

  datatype Addr =
    | Unset
    | V4(in4: In4, port: uint32)
    | V6(in6: In6, port: uint32)
    | Unix(path: CString)

  // `build`.

  function LastColon(s: string): Option<nat> {
    if s == "" then None
    else if s[|s| - 1] == ':' then Some(|s| - 1)
    else LastColon(s[..|s| - 1])
  }

  lemma {:induction false} LastColonIsLast(s: string)
    ensures match LastColon(s)
            case None => ':' !in s
            case Some(k) => k < |s| && s[k] == ':' && ':' !in s[k + 1..]
  {
    if s != "" && s[|s| - 1] != ':' {
      var t := s[..|s| - 1];
      LastColonIsLast(t);
      assert s == t + [s[|s| - 1]];
      if LastColon(t).Some? {
        var k := LastColon(t).value;
        assert s[k + 1..] == t[k + 1..] + [s[|s| - 1]];
      }
    }
  }

  lemma {:induction false} ColonThenNone(head: string, tail: string)
    requires ':' !in tail
    ensures LastColon(head + ":" + tail) == Some(|head|)
  {
    var s := head + ":" + tail;
    if tail == "" {
      assert s == head + ":";
    } else {
      assert s[..|s| - 1] == head + ":" + tail[..|tail| - 1];
      ColonThenNone(head, tail[..|tail| - 1]);
    }
  }

  /** The address text before the port and the port, if s has the form of both. */
  function Split(s: CString): Option<(CString, uint32)> {
    match LastColon(s)
    case None => None
    case Some(k) =>
      LastColonIsLast(s);
      if k == 0 then None
      else if s[0] == '[' && !(k > 2 && s[k - 1] == ']') then None
      else
        var ip := if s[0] == '[' then s[1..k - 1] else s[..k];
        if |ip| < INET6_ADDRSTRLEN && PortOf(s[k + 1..]).Some? then Some((ip, PortOf(s[k + 1..]).value)) else None
  }

  function FromIp(inet: Inet, ip: CString, port: uint32): Option<Addr> {
    if inet.pton4(ip).Some? then Some(V4(inet.pton4(ip).value, port))
    else if inet.pton6(ip).Some? then Some(V6(inet.pton6(ip).value, port))
    else None
  }

  function Built(inet: Inet, s: CString): Option<Addr> {
    match Split(s)
    case Some((ip, port)) => FromIp(inet, ip, port)
    case None => if |s| + 1 <= UNIX_PATH_MAX then Some(Unix(s)) else None
  }

  // `to_string`.

  /** The text form; an empty path is taken for an abstract name. */
  function TextOf(inet: Inet, a: Addr): Option<string> {
    match a
    case Unset => None
    case V4(in4, port) => Some(inet.ntop4(in4) + ":" + Text(port as nat))
    case V6(in6, port) => Some("[" + inet.ntop6(in6) + "]:" + Text(port as nat))
    case Unix(path) => if path != "" then Some(path) else Some("@")
  }

  // The round trip.

  lemma PortTextIsPlain(port: uint32)
    ensures ':' !in Text(port as nat) && '\0' !in Text(port as nat) && ']' !in Text(port as nat)
  {
    ValueOfText(port as nat);
  }

  lemma Ipv4RoundTrip(inet: Inet, in4: In4, port: uint32)
    requires Faithful(inet) && 1 <= port <= 65535
    ensures var text := TextOf(inet, V4(in4, port)).value;
            '\0' !in text && Built(inet, text) == Some(V4(in4, port))
  {
    var ip, tail := inet.ntop4(in4), Text(port as nat);
    var text := ip + ":" + tail;
    PortTextIsPlain(port);
    PortRoundTrip(port);
    ColonThenNone(ip, tail);
    assert Presentable(ip) && inet.pton4(ip) == Some(in4);
    assert text[|ip| + 1..] == tail && text[..|ip|] == ip && text[0] == ip[0];
    assert Split(text) == Some((ip, port));
  }

  lemma Ipv6RoundTrip(inet: Inet, in6: In6, port: uint32)
    requires Faithful(inet) && 1 <= port <= 65535
    ensures var text := TextOf(inet, V6(in6, port)).value;
            '\0' !in text && Built(inet, text) == Some(V6(in6, port))
  {
    var ip, tail := inet.ntop6(in6), Text(port as nat);
    var head := "[" + ip + "]";
    var text := "[" + ip + "]:" + tail;
    assert text == head + ":" + tail;
    PortTextIsPlain(port);
    PortRoundTrip(port);
    ColonThenNone(head, tail);
    assert Presentable(ip) && inet.pton6(ip) == Some(in6) && inet.pton4(ip) == None;
    var k := |head|;
    assert text[0] == '[' && text[k - 1] == ']' && k > 2;
    assert text[k + 1..] == tail && text[1..k - 1] == ip;
    assert Split(text) == Some((ip, port));
  }

  /** A port accepted by the parser is one that prints and parses back. */
  lemma BuiltPortIsReal(inet: Inet, s: CString)
    requires Built(inet, s).Some?
    ensures var a := Built(inet, s).value;
            !a.Unset? && (a.V4? || a.V6? ==> 1 <= a.port <= 65535)
            && (a.Unix? ==> a.path == s && Split(s).None?)
  {
  }

  /** The text of what was built from s, built again. */
  function Again(inet: Inet, s: CString): Option<Addr> {
    match Built(inet, s)
    case None => None
    case Some(a) =>
      match TextOf(inet, a)
      case Some(text) => if '\0' in text then None else Built(inet, text)
      case None => None
  }

  /**
   The round trip: for every string that `build` accepts, building the text of the result gives
   the same family, address and port or path, if and only if the string is not empty.
   */
  lemma TextRoundTrip(inet: Inet, s: CString)
    requires Faithful(inet) && Built(inet, s).Some?
    ensures Again(inet, s) == Built(inet, s) <==> s != ""
  {
    BuiltPortIsReal(inet, s);
    match Built(inet, s).value
    case Unset =>
    case V4(in4, port) => Ipv4RoundTrip(inet, in4, port);
    case V6(in6, port) => Ipv6RoundTrip(inet, in6, port);
    case Unix(path) =>
      if s == "" {
        assert LastColon("@") == LastColon("@"[..0]) == None;
        assert Built(inet, "@") == Some(Unix("@"));
      }
  }

  // The grammar.

  /** An address text, a colon and a port; or an address text in brackets, a colon and a port. */
  predicate Reads(s: string, ip: string, digits: string) {
    || (s == ip + ":" + digits && ip != "" && ip[0] != '[')
    || (s == "[" + ip + "]:" + digits && ip != "")
  }

  ghost predicate HasForm(s: string, ip: string, port: uint32) {
    |ip| < INET6_ADDRSTRLEN && exists digits :: PortOf(digits) == Some(port) && Reads(s, ip, digits)
  }

  lemma PortHasNoColon(digits: string)
    requires PortOf(digits).Some?
    ensures ':' !in digits
  {
    assert AllDigits(digits);
    assert !IsDigit(':');
  }

  lemma SplitReads(s: CString, ip: CString, port: uint32)
    requires Split(s) == Some((ip, port))
    ensures HasForm(s, ip, port)
  {
    var k := LastColon(s).value;
    LastColonIsLast(s);
    var digits := s[k + 1..];
    if s[0] == '[' {
      assert s == "[" + ip + "]:" + digits;
    } else {
      assert s == ip + ":" + digits;
    }
    assert Reads(s, ip, digits);
  }

  lemma ReadsSplit(s: CString, ip: CString, port: uint32, digits: string)
    requires |ip| < INET6_ADDRSTRLEN && PortOf(digits) == Some(port) && Reads(s, ip, digits)
    ensures Split(s) == Some((ip, port))
  {
    PortHasNoColon(digits);
    if s == ip + ":" + digits && ip != "" && ip[0] != '[' {
      ColonThenNone(ip, digits);
      assert s[..|ip|] == ip && s[|ip| + 1..] == digits && s[0] == ip[0];
    } else {
      var head := "[" + ip + "]";
      assert s == head + ":" + digits;
      ColonThenNone(head, digits);
      assert s[1..|head| - 1] == ip && s[|head| + 1..] == digits && s[0] == '[' && s[|head| - 1] == ']';
    }
  }

  /** A string splits into address text and port exactly when it has that form, and then in one way only. */
  lemma SplitsExactlyByTheForm(s: CString, ip: CString, port: uint32)
    ensures Split(s) == Some((ip, port)) <==> HasForm(s, ip, port)
  {
    if HasForm(s, ip, port) {
      var digits :| PortOf(digits) == Some(port) && Reads(s, ip, digits);
      ReadsSplit(s, ip, port, digits);
    }
    if Split(s) == Some((ip, port)) {
      SplitReads(s, ip, port);
    }
  }

  ghost predicate HasSomeForm(s: CString) {
    exists ip: CString, port :: HasForm(s, ip, port)
  }

  lemma SplitsExactlyWithAForm(s: CString)
    ensures Split(s).Some? <==> HasSomeForm(s)
  {
    if Split(s).Some? {
      var (ip, port) := Split(s).value;
      SplitsExactlyByTheForm(s, ip, port);
    }
    if HasSomeForm(s) {
      var ip: CString, port :| HasForm(s, ip, port);
      SplitsExactlyByTheForm(s, ip, port);
    }
  }

  /**
   Exactly what `build` makes of a string. It is a path if it has no port and fits with its terminator; an
   IPv4 address if it has the form and the text is one; an IPv6 address if the text is one and not the other.
   */
  lemma BuildsExactly(inet: Inet, s: CString, a: Addr)
    ensures Built(inet, s) == Some(a) <==>
              match a
              case Unset => false
              case Unix(path) => path == s && |s| < UNIX_PATH_MAX && !HasSomeForm(s)
              case V4(in4, port) =>
                exists ip: CString :: HasForm(s, ip, port) && inet.pton4(ip) == Some(in4)
              case V6(in6, port) =>
                exists ip: CString :: HasForm(s, ip, port) && inet.pton4(ip) == None && inet.pton6(ip) == Some(in6)
  {
    SplitsExactlyWithAForm(s);
    if Split(s).Some? {
      var (ip, port) := Split(s).value;
      SplitsExactlyByTheForm(s, ip, port);
    }
    forall ip: CString, port | HasForm(s, ip, port) ensures Split(s) == Some((ip, port)) {
      SplitsExactlyByTheForm(s, ip, port);
    }
  }

  // The text.

  /** The address, the last colon and the port, in decimal without leading zeros; no bracket at the front. */
  lemma Ipv4Text(inet: Inet, in4: In4, port: uint32) returns (k: nat)
    requires Faithful(inet) && 1 <= port <= 65535
    ensures var text := TextOf(inet, V4(in4, port)).value;
            && 0 < k < |text| && text[k] == ':' && ':' !in text[k + 1..] && text[0] != '['
            && text[..k] == inet.ntop4(in4) && inet.pton4(text[..k]) == Some(in4)
            && PortOf(text[k + 1..]) == Some(port) && k + 1 < |text| && text[k + 1] != '0'
  {
    var ip, tail := inet.ntop4(in4), Text(port as nat);
    var text := ip + ":" + tail;
    k := |ip|;
    NoLeadingZero(port as nat);
    PortTextIsPlain(port);
    PortRoundTrip(port);
    assert Presentable(ip) && inet.pton4(ip) == Some(in4);
    assert text[..k] == ip && text[k + 1..] == tail && text[0] == ip[0];
  }

  /** The bracketed form: the address between the brackets, the port after the colon that follows them. */
  lemma Ipv6Text(inet: Inet, in6: In6, port: uint32) returns (k: nat)
    requires Faithful(inet) && 1 <= port <= 65535
    ensures var text := TextOf(inet, V6(in6, port)).value;
            && 1 < k && k + 1 < |text| && text[0] == '[' && text[k] == ']' && text[k + 1] == ':'
            && text[1..k] == inet.ntop6(in6) && inet.pton6(text[1..k]) == Some(in6)
            && PortOf(text[k + 2..]) == Some(port) && k + 2 < |text| && text[k + 2] != '0'
  {
    var ip, tail := inet.ntop6(in6), Text(port as nat);
    var text := "[" + ip + "]:" + tail;
    k := 1 + |ip|;
    NoLeadingZero(port as nat);
    PortTextIsPlain(port);
    PortRoundTrip(port);
    assert Presentable(ip) && inet.pton6(ip) == Some(in6);
    assert text[1..k] == ip && text[k + 2..] == tail;
  }

  /** A path is its own text; an address never set has none. */
  lemma PathText(inet: Inet, path: CString)
    ensures TextOf(inet, Unix(path)) == Some(if path == "" then "@" else path) && TextOf(inet, Unset) == None
  {
  }

  // The object.

  /** The string in a character buffer, up to its first NUL. */
  function CText(a: seq<char>): CString {
    if a == [] || a[0] == '\0' then "" else [a[0]] + CText(a[1..])
  }

  lemma {:induction false} CTextOf(s: CString, a: seq<char>)
    requires |s| < |a| && a[..|s|] == s && a[|s|] == '\0'
    ensures CText(a) == s
  {
    if s != "" {
      assert s[0] == a[0] && a[1..][..|s| - 1] == s[1..];
      CTextOf(s[1..], a[1..]);
    }
  }

  /** Copies a string and its terminator to an offset, as memcpy, inet_ntop and snprintf do. */
  method Write(dst: array<char>, offset: nat, s: string)
    requires offset + |s| < dst.Length
    modifies dst
    ensures dst[offset..offset + |s|] == s && dst[offset + |s|] == '\0'
    ensures dst[..offset] == old(dst[..offset]) && dst[offset + |s| + 1..] == old(dst[offset + |s| + 1..])
  {
    for i := 0 to |s|
      invariant dst[..offset] == old(dst[..offset])
      invariant dst[offset..offset + i] == s[..i]
      invariant dst[offset + |s|..] == old(dst[offset + |s|..])
    {
      dst[offset + i] := s[i];
    }
    dst[offset + |s|] := '\0';
  }

  /** The buffer begins with this text and its terminator. */
  predicate Holds(buffer: seq<char>, text: string) {
    |text| < |buffer| && buffer[..|text|] == text && buffer[|text|] == '\0'
  }

  lemma HoldsBoth(buffer: seq<char>, head: string, tail: string)
    requires |head| < |buffer| && buffer[..|head|] == head && Holds(buffer[|head|..], tail)
    ensures Holds(buffer, head + tail)
  {
    var rest := buffer[|head|..];
    assert buffer[..|head| + |tail|] == buffer[..|head|] + rest[..|tail|];
  }

  class Address {
    var addr: Addr

    /** `_M_length` minus the offset of the path, for a Unix address. */
    var pathlen: nat

    constructor ()
      ensures addr == Unset
    {
      addr, pathlen := Unset, 0;
    }

    ghost predicate Valid()
      reads this
    {
      && (addr.Unix? ==> pathlen == |addr.path| + 1)
    }

    method BuildIp(inet: Inet, ip: CString, port: uint32) returns (ok: bool)
      modifies this
      ensures ok <==> FromIp(inet, ip, port).Some?
      ensures if ok then addr == FromIp(inet, ip, port).value && Valid()
              else addr == old(addr) && pathlen == old(pathlen)
    {
      var in4 := inet.pton4(ip);
      if in4.Some? {
        addr := V4(in4.value, port);
        return true;
      }
      var in6 := inet.pton6(ip);
      if in6.Some? {
        addr := V6(in6.value, port);
        return true;
      }
      return false;
    }

    /** `strrchr` for a colon, then the checks in the source's order; `ip` is the caller's buffer. */
    static method ExtractIpPort(address: CString, ip: array<char>) returns (port: Option<uint32>)
      requires ip.Length == INET6_ADDRSTRLEN
      modifies ip
      ensures port.Some? <==> Split(address).Some?
      ensures port.Some? ==> (CText(ip[..]), port.value) == Split(address).value
    {
      LastColonIsLast(address);
      assert address[..|address|] == address;
      var k := |address|;
      while k > 0 && address[k - 1] != ':'
        invariant 0 <= k <= |address|
        invariant LastColon(address[..k]) == LastColon(address)
      {
        assert address[..k][..k - 1] == address[..k - 1];
        k := k - 1;
      }
      if k == 0 {
        return None;
      }
      var colon := k - 1;
      assert LastColon(address[..k]) == Some(colon);
      if colon == 0 {
        return None;
      }
      var from, len := 0, colon;
      if address[0] == '[' {
        if len > 2 && address[colon - 1] == ']' {
          from, len := 1, len - 2;
        } else {
          return None;
        }
      }
      if len < INET6_ADDRSTRLEN {
        port := ParsePort(address[colon + 1..]);
        if port.Some? {
          Write(ip, 0, address[from..from + len]);
          CTextOf(address[from..from + len], ip[..]);
        }
      } else {
        port := None;
      }
    }

    method Build(inet: Inet, address: CString) returns (ok: bool)
      modifies this
      ensures ok <==> Built(inet, address).Some?
      ensures if ok then addr == Built(inet, address).value && Valid()
              else addr == old(addr) && pathlen == old(pathlen)
    {
      var ip := new char[INET6_ADDRSTRLEN];
      var port := ExtractIpPort(address, ip);
      if port.Some? {
        ok := BuildIp(inet, CText(ip[..]), port.value);
      } else {
        var len := |address| + 1;
        if len <= UNIX_PATH_MAX {
          addr, pathlen := Unix(address), len;
          return true;
        }
        return false;
      }
    }

    /**
     Succeeds exactly when the text and its terminator fit in `size`, and then leaves exactly that
     text; never writes at or beyond `size`, whatever is there.
     */
    method ToString(inet: Inet, dst: array<char>, size: nat) returns (ok: bool)
      requires Valid() && size <= dst.Length
      modifies dst
      ensures ok <==> TextOf(inet, addr).Some? && |TextOf(inet, addr).value| < size
      ensures ok ==> Holds(dst[..], TextOf(inet, addr).value)
      ensures dst[size..] == old(dst[size..])
    {
      match addr
      case Unset =>
        ok := false;
      case V4(in4, port) =>
        ok := PrintIpv4(inet.ntop4(in4), port, dst, size);
      case V6(in6, port) =>
        ok := PrintIpv6(inet.ntop6(in6), port, dst, size);
      case Unix(path) =>
        if path != "" {
          if pathlen > size {
            return false;
          }
          Write(dst, 0, path);
        } else {
          if pathlen >= size {
            return false;
          }
          Write(dst, 0, "@");
        }
        ok := true;
    }

    static method PrintIpv4(text: CString, port: uint32, dst: array<char>, size: nat) returns (ok: bool)
      requires size <= dst.Length
      modifies dst
      ensures ok <==> |text + ":" + Text(port as nat)| < size
      ensures ok ==> Holds(dst[..], text + ":" + Text(port as nat))
      ensures dst[size..] == old(dst[size..])
    {
      if |text| >= size {
        return false;
      }
      Write(dst, 0, text);
      ok := PrintPort(dst, size, |text|, ":", port);
      if ok {
        HoldsBoth(dst[..], text, ":" + Text(port as nat));
        assert text + (":" + Text(port as nat)) == text + ":" + Text(port as nat);
      }
    }

    /** The text goes in at offset 1; the bracket before it is written only on success. */
    static method PrintIpv6(text: CString, port: uint32, dst: array<char>, size: nat) returns (ok: bool)
      requires size <= dst.Length
      modifies dst
      ensures ok <==> |"[" + text + "]:" + Text(port as nat)| < size
      ensures ok ==> Holds(dst[..], "[" + text + "]:" + Text(port as nat))
      ensures dst[size..] == old(dst[size..])
    {
      if size <= 2 || |text| >= size - 1 {
        return false;
      }
      Write(dst, 1, text);
      ok := PrintPort(dst, size, 1 + |text|, "]:", port);
      if ok {
        assert dst[1..1 + |text|] == text;
        dst[0] := '[';
        assert dst[1..1 + |text|] == text;
        assert dst[..1 + |text|] == "[" + text;
        HoldsBoth(dst[..], "[" + text, "]:" + Text(port as nat));
        assert ("[" + text) + ("]:" + Text(port as nat)) == "[" + text + "]:" + Text(port as nat);
      }
    }

    /** `snprintf(dst + len, size - len, ...)`: cut short, and reported as too long, if it does not fit. */
    static method PrintPort(dst: array<char>, size: nat, len: nat, prefix: string, port: uint32)
      returns (ok: bool)
      requires len < size <= dst.Length
      modifies dst
      ensures ok <==> len + |prefix + Text(port as nat)| < size
      ensures ok ==> Holds(dst[len..], prefix + Text(port as nat))
      ensures dst[..len] == old(dst[..len]) && dst[size..] == old(dst[size..])
    {
      var text := prefix + Text(port as nat);
      ok := |text| < size - len;
      var cut := if ok then text else text[..size - len - 1];
      Write(dst, len, cut);
      assert dst[size..] == dst[len + |cut| + 1..][size - (len + |cut| + 1)..];
    }
  }
}
