/** The SOCKS5 control path of the server: method negotiation
    (handleHandshake), CONNECT request parsing and dialling (handleRequest) and
    reply encoding (sendReply). Each handler is a method over the connection
    and is proved equal to a function of the bytes the client sent: Negotiate
    and Resolve describe, for any input, how much is consumed, what is written
    back and what is returned. */
module Socks {
  import opened Wire
  import opened Text
  import opened Stream

  /** Effect of the handshake on the client stream. */
  datatype Negotiation = Negotiation(consumed: nat, output: seq<byte>, result: Result<()>)

  /** The connection handed back after a successful dial. */
  datatype TargetConn = TargetConn(remote: seq<byte>, local: TCPAddr)

  /** Effect of the request handler: bytes consumed, bytes written, the
      target dialled (if any) and the result. */
  datatype Resolution =
    Resolution(consumed: nat, output: seq<byte>, dialed: Option<seq<byte>>, result: Result<TargetConn>)

  /** Method negotiation as a function of the bytes the client sends. */
  function Negotiate(input: seq<byte>): Negotiation
  {
    if |input| < 2 then Negotiation(|input|, [], Err(ShortReadError(input)))
    else if input[0] != Version then Negotiation(2, [], Err(VersionMismatch))
    else
      var n: nat := input[1];
      if |input| < 2 + n then Negotiation(|input|, [], Err(ShortReadError(input[2..])))
      else if NoAuth in input[2..2 + n] then Negotiation(2 + n, [Version, NoAuth], Ok(()))
      else Negotiation(2 + n, [Version, NoAcceptableMethods], Err(NoAcceptableAuthMethod))
  }

  predicate KnownAddressType(atyp: byte)
  {
    atyp == IPv4Addr || atyp == DomainAddr || atyp == IPv6Addr
  }

  /** What DST.ADDR and DST.PORT decode to: the host text, the port and the
      number of bytes the two fields took, or the error of a short read. */
  datatype AddressDecode = Decoded(host: seq<byte>, port: uint16, length: nat) | Truncated(error: Error)

  /** A host field of `n` raw bytes followed by the two port bytes. */
  function DecodeField(rest: seq<byte>, n: nat): AddressDecode
  {
    if |rest| < n then Truncated(ShortReadError(rest))
    else if |rest| < n + 2 then Truncated(ShortReadError(rest[n..]))
    else Decoded(rest[..n], Uint16Of(rest[n], rest[n + 1]), n + 2)
  }

  /** DST.ADDR and DST.PORT for address type `atyp`, at the front of `rest`. */
  function DecodeDestination(atyp: byte, rest: seq<byte>, ipv6Text: IPv6 -> seq<byte>): AddressDecode
    requires KnownAddressType(atyp)
  {
    if atyp == DomainAddr then
      if rest == [] then Truncated(EOF)
      else
        match DecodeField(rest[1..], rest[0])
        case Truncated(e) => Truncated(e)
        case Decoded(name, port, length) => Decoded(name, port, 1 + length)
    else
      var n := if atyp == IPv4Addr then 4 else 16;
      match DecodeField(rest, n)
      case Truncated(e) => Truncated(e)
      case Decoded(raw, port, length) =>
        Decoded(if atyp == IPv4Addr then Dotted(raw) else ipv6Text(raw), port, length)
  }

  /** Request handling as a function of the bytes the client sends, the
      network's answer to each dial and the IPv6 text rendering. */
  function Resolve(input: seq<byte>, network: seq<byte> -> DialResult, ipv6Text: IPv6 -> seq<byte>): Resolution
  {
    if |input| < 4 then Resolution(|input|, [], None, Err(ShortReadError(input)))
    else if input[0] != Version then Resolution(4, [], None, Err(VersionMismatch))
    else if input[1] != ConnectCmd then
      Resolution(4, ReplyBytes(CommandNotSupported, None), None, Err(UnsupportedCommand))
    else if !KnownAddressType(input[3]) then
      Resolution(4, ReplyBytes(AddressTypeNotSupported, None), None, Err(UnsupportedAddressType))
    else
      match DecodeDestination(input[3], input[4..], ipv6Text)
      case Truncated(e) => Resolution(|input|, [], None, Err(e))
      case Decoded(host, port, length) =>
        var target := JoinTarget(host, port);
        match network(target)
        case Refused =>
          Resolution(4 + length, ReplyBytes(ConnectionRefused, None), Some(target), Err(DialError))
        case Connected(local) =>
          Resolution(4 + length, ReplyBytes(Succeeded, Some(local)), Some(target), Ok(TargetConn(target, local)))
  }

  function Attempted(dialed: Option<seq<byte>>): seq<seq<byte>>
  {
    if dialed.Some? then [dialed.value] else []
  }

  /** The scan of the offered methods for "no authentication required". */
  method OffersNoAuth(methods: seq<byte>) returns (hasNoAuth: bool)
    ensures hasNoAuth <==> NoAuth in methods
  {
    hasNoAuth := false;
    var i := 0;
    while i < |methods|
      invariant 0 <= i <= |methods|
      invariant NoAuth !in methods[..i]
    {
      if methods[i] == NoAuth {
        hasNoAuth := true;
        break;
      }
      i := i + 1;
    }
    assert !hasNoAuth ==> methods[..i] == methods;
  }

  /** handleHandshake */
  method HandleHandshake(conn: Conn) returns (r: Result<()>)
    requires conn.Valid()
    modifies conn
    ensures conn.Valid()
    ensures var o := Negotiate(old(conn.Unread()));
      && conn.pos == old(conn.pos) + o.consumed
      && conn.written == old(conn.written) + o.output
      && r == o.result
  {
    ghost var input := conn.Unread();
    var buf := conn.ReadFull(2);
    if buf.Err? {
      return Err(buf.error);
    }
    if buf.value[0] != Version {
      return Err(VersionMismatch);
    }
    var numMethods: nat := buf.value[1];
    assert conn.Unread() == input[2..];
    var methods := conn.ReadFull(numMethods);
    if methods.Err? {
      return Err(methods.error);
    }
    assert methods.value == input[2..2 + numMethods];
    var hasNoAuth := OffersNoAuth(methods.value);
    if !hasNoAuth {
      conn.Write([Version, NoAcceptableMethods]);
      return Err(NoAcceptableAuthMethod);
    }
    conn.Write([Version, NoAuth]);
    return Ok(());
  }

  /** The 10-byte reply buffer of sendReply, filled in place. */
  method ReplyBuffer(status: byte, addr: Option<TCPAddr>) returns (reply: seq<byte>)
    ensures reply == ReplyBytes(status, addr)
  {
    ghost var want := ReplyBytes(status, addr);
    var buf := new byte[10](_ => 0);
    buf[0] := Version;
    buf[1] := status;
    buf[2] := 0x00;
    buf[3] := IPv4Addr;
    if addr.Some? {
      var ip := addr.value.ip;
      if ip.BoundIPv4? {
        for i := 0 to 4
          invariant forall k :: 0 <= k < 4 + i ==> buf[k] == want[k]
          invariant forall k :: 4 + i <= k < 10 ==> buf[k] == 0
        {
          buf[4 + i] := ip.octets[i];
        }
      }
      var port := Truncate16(addr.value.port);
      buf[8] := port / 0x100;
      buf[9] := port % 0x100;
    }
    assert forall k :: 0 <= k < 10 ==> buf[k] == want[k];
    reply := buf[..];
  }

  /** sendReply */
  method SendReply(conn: Conn, status: byte, addr: Option<TCPAddr>)
    modifies conn`written
    ensures conn.written == old(conn.written) + ReplyBytes(status, addr)
  {
    var reply := ReplyBuffer(status, addr);
    conn.Write(reply);
  }

  /** The address-type switch and the port read of handleRequest. */
  method ReadDestination(conn: Conn, addrType: byte, ipv6Text: IPv6 -> seq<byte>) returns (d: AddressDecode)
    requires conn.Valid() && KnownAddressType(addrType)
    modifies conn`pos
    ensures conn.Valid()
    ensures d == DecodeDestination(addrType, old(conn.Unread()), ipv6Text)
    ensures conn.pos == old(conn.pos) + (if d.Decoded? then d.length else |old(conn.Unread())|)
  {
    ghost var rest := conn.Unread();
    var startPos := conn.pos;
    var host: seq<byte>;
    ghost var start: nat;
    if addrType == IPv4Addr {
      var addr := conn.ReadFull(4);
      if addr.Err? {
        return Truncated(addr.error);
      }
      start := 0;
      host := Dotted(addr.value);
    } else if addrType == DomainAddr {
      var lenBuf := conn.ReadFull(1);
      if lenBuf.Err? {
        return Truncated(lenBuf.error);
      }
      assert conn.Unread() == rest[1..];
      var domain := conn.ReadFull(lenBuf.value[0]);
      if domain.Err? {
        return Truncated(domain.error);
      }
      start := 1;
      host := domain.value;
    } else {
      var addr := conn.ReadFull(16);
      if addr.Err? {
        return Truncated(addr.error);
      }
      start := 0;
      host := ipv6Text(addr.value);
    }
    ghost var n: nat := conn.pos - old(conn.pos) - start;
    assert conn.Unread() == rest[start + n..];
    var portBuf := conn.ReadFull(2);
    if portBuf.Err? {
      return Truncated(portBuf.error);
    }
    var port := Uint16Of(portBuf.value[0], portBuf.value[1]);
    return Decoded(host, port, conn.pos - startPos);
  }

  /** handleRequest; `ipv6Text` is net.IP.String on a 16-byte address. */
  method HandleRequest(conn: Conn, dialer: Dialer, ipv6Text: IPv6 -> seq<byte>) returns (r: Result<TargetConn>)
    requires conn.Valid()
    modifies conn, dialer
    ensures conn.Valid()
    ensures var o := Resolve(old(conn.Unread()), dialer.network, ipv6Text);
      && conn.pos == old(conn.pos) + o.consumed
      && conn.written == old(conn.written) + o.output
      && dialer.attempts == old(dialer.attempts) + Attempted(o.dialed)
      && r == o.result
  {
    ghost var input := conn.Unread();
    var hdr := conn.ReadFull(4);
    if hdr.Err? {
      return Err(hdr.error);
    }
    var buf := hdr.value;
    if buf[0] != Version {
      return Err(VersionMismatch);
    }
    if buf[1] != ConnectCmd {
      SendReply(conn, CommandNotSupported, None);
      return Err(UnsupportedCommand);
    }
    var addrType := buf[3];
    if !KnownAddressType(addrType) {
      SendReply(conn, AddressTypeNotSupported, None);
      return Err(UnsupportedAddressType);
    }
    assert conn.Unread() == input[4..];
    var dest := ReadDestination(conn, addrType, ipv6Text);
    if dest.Truncated? {
      return Err(dest.error);
    }
    var target := JoinTarget(dest.host, dest.port);
    var dialed := dialer.Dial(target);
    if dialed.Refused? {
      SendReply(conn, ConnectionRefused, None);
      return Err(DialError);
    }
    SendReply(conn, Succeeded, Some(dialed.local));
    return Ok(TargetConn(target, dialed.local));
  }
}
