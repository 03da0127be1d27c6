/** What the SOCKS5 control path guarantees, stated over the wire-level
    functions that the handlers are proved equal to. */
module SocksProperties {
  import opened Wire
  import opened Text
  import opened Stream
  import opened Socks

  // ---------------------------------------------------------------------
  // Method negotiation

  /** A greeting whose version is not 5 is dropped after its 2-byte header,
      with nothing written back. */
  lemma GreetingVersionMismatch(input: seq<byte>)
    requires |input| >= 2 && input[0] != Version
    ensures Negotiate(input) == Negotiation(2, [], Err(VersionMismatch))
  {
  }

  /** With version 5 and N = the second byte, exactly 2 + N bytes are
      consumed, and [5, 0x00] is written exactly when 0x00 occurs anywhere
      among the N method bytes; otherwise [5, 0xFF] is written and the
      handshake fails. */
  lemma HandshakeSelection(input: seq<byte>)
    requires |input| >= 2 && input[0] == Version && |input| >= 2 + input[1] as int
    ensures Negotiate(input).consumed == 2 + input[1] as int
    ensures Negotiate(input).output == [Version, NoAuth]
      <==> exists i :: 2 <= i < 2 + input[1] as int && input[i] == NoAuth
    ensures Negotiate(input).output == [Version, NoAuth] || Negotiate(input).output == [Version, NoAcceptableMethods]
    ensures Negotiate(input).result == Ok(()) <==> Negotiate(input).output == [Version, NoAuth]
    ensures Negotiate(input).result.Err? ==> Negotiate(input).result.error == NoAcceptableAuthMethod
  {
  }

  /** A greeting cut short (in its header or in its method list) fails with
      a read error after consuming all the input, and nothing is written. */
  lemma HandshakeShortRead(input: seq<byte>)
    requires |input| < 2 || (input[0] == Version && |input| < 2 + input[1] as int)
    ensures Negotiate(input).consumed == |input|
    ensures Negotiate(input).output == []
    ensures Negotiate(input).result == Err(EOF) || Negotiate(input).result == Err(UnexpectedEOF)
  {
  }

  /** Round trip with the client's encoder: the server consumes exactly the
      greeting, whatever follows it, and accepts exactly when "no
      authentication required" is offered. */
  lemma HandshakeOfGreeting(methods: seq<byte>, rest: seq<byte>)
    requires |methods| < 0x100
    ensures var o := Negotiate(Greeting(methods) + rest);
      && o.consumed == |Greeting(methods)|
      && (NoAuth in methods ==> o.output == [Version, NoAuth] && o.result == Ok(()))
      && (NoAuth !in methods ==> o.output == [Version, NoAcceptableMethods] && o.result == Err(NoAcceptableAuthMethod))
  {
  }

  // ---------------------------------------------------------------------
  // Request parsing and dialling

  /** A request whose version is not 5 is dropped after its 4-byte header:
      no reply, no dial. */
  lemma RequestVersionMismatch(input: seq<byte>, network: seq<byte> -> DialResult, ipv6Text: IPv6 -> seq<byte>)
    requires |input| >= 4 && input[0] != Version
    ensures Resolve(input, network, ipv6Text) == Resolution(4, [], None, Err(VersionMismatch))
  {
  }

  /** Any command other than CONNECT gets one reply with status 0x07 after
      the header alone, whatever the address type; nothing is dialled. */
  lemma RequestCommandNotSupported(input: seq<byte>, network: seq<byte> -> DialResult, ipv6Text: IPv6 -> seq<byte>)
    requires |input| >= 4 && input[0] == Version && input[1] != ConnectCmd
    ensures Resolve(input, network, ipv6Text)
      == Resolution(4, ReplyBytes(CommandNotSupported, None), None, Err(UnsupportedCommand))
  {
  }

  /** CONNECT with an address type other than 1, 3 and 4 gets one reply with
      status 0x08 after the header alone; nothing is dialled. */
  lemma RequestAddressTypeNotSupported(input: seq<byte>, network: seq<byte> -> DialResult, ipv6Text: IPv6 -> seq<byte>)
    requires |input| >= 4 && input[0] == Version && input[1] == ConnectCmd
    requires input[3] != IPv4Addr && input[3] != DomainAddr && input[3] != IPv6Addr
    ensures Resolve(input, network, ipv6Text)
      == Resolution(4, ReplyBytes(AddressTypeNotSupported, None), None, Err(UnsupportedAddressType))
  {
  }

  /** A well-formed CONNECT header, with an address type the server knows. */
  predicate ConnectHeader(input: seq<byte>)
  {
    |input| >= 4 && input[0] == Version && input[1] == ConnectCmd && KnownAddressType(input[3])
  }

  /** How many bytes the request declares: header, address, port. */
  function DeclaredLength(input: seq<byte>): nat
    requires ConnectHeader(input)
  {
    if input[3] == IPv4Addr then 10
    else if input[3] == IPv6Addr then 22
    else if |input| == 4 then 5
    else 7 + input[4] as int
  }

  /** A CONNECT request cut short anywhere in its address or port fails with
      a read error after consuming all the input; no reply, no dial. */
  lemma RequestShortRead(input: seq<byte>, network: seq<byte> -> DialResult, ipv6Text: IPv6 -> seq<byte>)
    requires ConnectHeader(input) && |input| < DeclaredLength(input)
    ensures var o := Resolve(input, network, ipv6Text);
      && o.consumed == |input| && o.output == [] && o.dialed == None
      && (o.result == Err(EOF) || o.result == Err(UnexpectedEOF))
  {
  }

  /** The target dialled for an IPv4 request: the dotted-decimal address,
      ':', the big-endian port in decimal. */
  lemma RequestIPv4Target(input: seq<byte>, network: seq<byte> -> DialResult, ipv6Text: IPv6 -> seq<byte>)
    requires |input| >= 10 && input[0] == Version && input[1] == ConnectCmd && input[3] == IPv4Addr
    ensures var o := Resolve(input, network, ipv6Text);
      && o.consumed == 10
      && o.dialed == Some(JoinTarget(Dotted(input[4..8]), 0x100 * (input[8] as int) + input[9] as int))
  {
  }

  /** The target dialled for a domain request: exactly the L bytes after the
      length byte L, ':', the port in decimal. */
  lemma RequestDomainTarget(input: seq<byte>, network: seq<byte> -> DialResult, ipv6Text: IPv6 -> seq<byte>)
    requires |input| >= 5 && input[0] == Version && input[1] == ConnectCmd && input[3] == DomainAddr
    requires |input| >= 7 + input[4] as int
    ensures var o := Resolve(input, network, ipv6Text);
      var l := input[4] as int;
      && o.consumed == 7 + l
      && o.dialed == Some(JoinTarget(input[5..5 + l], 0x100 * (input[5 + l] as int) + input[6 + l] as int))
  {
    var l := input[4] as int;
    assert input[4..][1..][..l] == input[5..5 + l];
  }

  /** The target dialled for an IPv6 request: the text of the 16 address
      bytes (unbracketed), ':', the port in decimal. */
  lemma RequestIPv6Target(input: seq<byte>, network: seq<byte> -> DialResult, ipv6Text: IPv6 -> seq<byte>)
    requires |input| >= 22 && input[0] == Version && input[1] == ConnectCmd && input[3] == IPv6Addr
    ensures var o := Resolve(input, network, ipv6Text);
      && o.consumed == 22
      && o.dialed == Some(JoinTarget(ipv6Text(input[4..20]), 0x100 * (input[20] as int) + input[21] as int))
  {
    assert input[4..][..16] == input[4..20];
  }

  /** Once the target is dialled: a refusal gets one reply with status 0x05
      and no address; a connection gets one reply with status 0x00 carrying
      the local address, and is returned. */
  lemma RequestDialOutcome(input: seq<byte>, network: seq<byte> -> DialResult, ipv6Text: IPv6 -> seq<byte>)
    requires Resolve(input, network, ipv6Text).dialed.Some?
    ensures var o := Resolve(input, network, ipv6Text);
      && (network(o.dialed.value).Refused? ==>
            o.output == ReplyBytes(ConnectionRefused, None) && o.result == Err(DialError))
      && (network(o.dialed.value).Connected? ==>
            var local := network(o.dialed.value).local;
            o.output == ReplyBytes(Succeeded, Some(local)) && o.result == Ok(TargetConn(o.dialed.value, local)))
  {
  }

  /** A success is returned only for a target that was dialled and
      connected, and then the success reply is what was written. */
  lemma SuccessOnlyAfterConnect(input: seq<byte>, network: seq<byte> -> DialResult, ipv6Text: IPv6 -> seq<byte>)
    requires Resolve(input, network, ipv6Text).result.Ok?
    ensures var o := Resolve(input, network, ipv6Text);
      && o.dialed == Some(o.result.value.remote)
      && network(o.result.value.remote) == Connected(o.result.value.local)
      && o.output == ReplyBytes(Succeeded, Some(o.result.value.local))
  {
  }

  /** Host text of a destination, as the server renders it. */
  function HostText(d: Destination, ipv6Text: IPv6 -> seq<byte>): seq<byte>
  {
    match d
    case ToIPv4(a) => Dotted(a)
    case ToDomain(name) => name
    case ToIPv6(b) => ipv6Text(b)
  }

  /** Round trip with the client's encoder: the server consumes exactly the
      CONNECT request, whatever follows it, and dials host:port of the
      destination the client encoded. */
  lemma RequestOfEncoded(d: Destination, port: uint16, rest: seq<byte>,
                         network: seq<byte> -> DialResult, ipv6Text: IPv6 -> seq<byte>)
    requires ValidDestination(d)
    ensures var o := Resolve(Request(ConnectCmd, d, port) + rest, network, ipv6Text);
      && o.consumed == |Request(ConnectCmd, d, port)|
      && o.dialed == Some(JoinTarget(HostText(d, ipv6Text), port))
  {
    var input := Request(ConnectCmd, d, port) + rest;
    var field := AddressField(d);
    var n := |field|;
    assert input[..4] == [Version, ConnectCmd, 0x00, AddressType(d)];
    assert input[4..4 + n] == field;
    assert input[4 + n] == port / 0x100 && input[5 + n] == port % 0x100;
    match d
    case ToIPv4(a) =>
      RequestIPv4Target(input, network, ipv6Text);
    case ToDomain(name) =>
      assert input[4] == |name|;
      assert input[5..5 + |name|] == name;
      RequestDomainTarget(input, network, ipv6Text);
    case ToIPv6(b) =>
      RequestIPv6Target(input, network, ipv6Text);
  }

  /** The dial target can be split back into the host text and the port. */
  lemma DialTargetSplits(input: seq<byte>, network: seq<byte> -> DialResult, ipv6Text: IPv6 -> seq<byte>)
    requires ConnectHeader(input) && |input| >= DeclaredLength(input)
    ensures var o := Resolve(input, network, ipv6Text);
      && o.dialed.Some?
      && SplitTarget(o.dialed.value).Some?
      && SplitTarget(o.dialed.value).value.1 < 0x1_0000
  {
    var d := DecodeDestination(input[3], input[4..], ipv6Text);
    assert d.Decoded?;
    TargetRoundTrip(d.host, d.port);
  }

  // ---------------------------------------------------------------------
  // Reply encoding

  /** Every reply is 10 bytes: VER 5, REP, RSV 0, ATYP IPv4, BND.ADDR, BND.PORT. */
  lemma ReplyLayout(status: byte, addr: Option<TCPAddr>)
    ensures var r := ReplyBytes(status, addr);
      && |r| == 10
      && r[..4] == [Version, status, 0x00, IPv4Addr]
      && r[4..8] == BoundAddrField(addr)
      && r[8..] == BoundPortField(addr)
  {
  }

  /** Without an address, bytes 4 to 9 are all zero. */
  lemma ReplyWithoutAddress(status: byte)
    ensures ReplyBytes(status, None)[4..] == [0, 0, 0, 0, 0, 0]
  {
  }

  /** A local address that is not IPv4 leaves BND.ADDR zero-filled but the
      port is still written. */
  lemma ReplyNotIPv4(status: byte, port: int)
    requires 0 <= port < 0x1_0000
    ensures var r := ReplyBytes(status, Some(TCPAddr(NotIPv4, port)));
      && r[4..8] == [0, 0, 0, 0]
      && Uint16Of(r[8], r[9]) == port
  {
  }

  /** Decoding bytes 4 to 9 of a reply gives back the IPv4 address and port. */
  lemma ReplyRoundTrip(status: byte, a: IPv4, port: int)
    requires 0 <= port < 0x1_0000
    ensures DecodeBound(ReplyBytes(status, Some(TCPAddr(BoundIPv4(a), port)))[4..]) == (a, port)
  {
    var r := ReplyBytes(status, Some(TCPAddr(BoundIPv4(a), port)));
    assert r[4..][..4] == a;
  }

  /** The port field is big-endian in both directions. */
  lemma BigEndianRoundTrip(v: uint16, hi: byte, lo: byte)
    ensures Uint16Of(BigEndian16(v)[0], BigEndian16(v)[1]) == v
    ensures BigEndian16(Uint16Of(hi, lo)) == [hi, lo]
  {
  }

  // ---------------------------------------------------------------------
  // Worked exchanges

  /** Greeting 05 01 00, then CONNECT 127.0.0.1:80: the server selects
      no-auth and dials "127.0.0.1:80". */
  lemma ConnectLoopbackExchange(network: seq<byte> -> DialResult, ipv6Text: IPv6 -> seq<byte>)
    ensures Negotiate([5, 1, 0]) == Negotiation(3, [5, 0], Ok(()))
    ensures Resolve([5, 1, 0, 1, 127, 0, 0, 1, 0, 80], network, ipv6Text).dialed
      == Some([0x31, 0x32, 0x37, 0x2E, 0x30, 0x2E, 0x30, 0x2E, 0x31, 0x3A, 0x38, 0x30])
  {
    var greeting: seq<byte> := [5, 1, 0];
    assert greeting[2..3] == [NoAuth];
    var request: seq<byte> := [5, 1, 0, 1, 127, 0, 0, 1, 0, 80];
    RequestIPv4Target(request, network, ipv6Text);
    assert request[4..8] == [127, 0, 0, 1];
    assert Decimal(12) == [0x31, 0x32];
    assert Decimal(127) == [0x31, 0x32, 0x37];
    assert Decimal(80) == [0x38, 0x30];
    assert Dotted([127, 0, 0, 1]) == [0x31, 0x32, 0x37, 0x2E, 0x30, 0x2E, 0x30, 0x2E, 0x31];
    assert JoinTarget(Dotted([127, 0, 0, 1]), 80)
      == [0x31, 0x32, 0x37, 0x2E, 0x30, 0x2E, 0x30, 0x2E, 0x31, 0x3A, 0x38, 0x30];
  }

  /** CONNECT to domain "example.com" (length byte 0x0B) port 80: the host is
      decoded as exactly those 11 bytes. */
  lemma ConnectDomainExchange(network: seq<byte> -> DialResult, ipv6Text: IPv6 -> seq<byte>)
    ensures var name := [0x65, 0x78, 0x61, 0x6D, 0x70, 0x6C, 0x65, 0x2E, 0x63, 0x6F, 0x6D];
      Resolve([5, 1, 0, 3, 0x0B] + name + [0, 80], network, ipv6Text).dialed
      == Some(name + [0x3A, 0x38, 0x30])
  {
    var name: seq<byte> := [0x65, 0x78, 0x61, 0x6D, 0x70, 0x6C, 0x65, 0x2E, 0x63, 0x6F, 0x6D];
    var request := [5, 1, 0, 3, 0x0B] + name + [0, 80];
    RequestDomainTarget(request, network, ipv6Text);
    assert request[5..16] == name;
    assert request[16] == 0 && request[17] == 80;
    assert Decimal(80) == [0x38, 0x30];
    assert JoinTarget(name, 80) == name + [0x3A, 0x38, 0x30];
  }

  /** The same name with length byte 0x09: the server takes "example.c" as
      the host and the bytes "om" (0x6F6D = 28525) as the port, leaving the
      last two bytes unread. */
  lemma DomainLengthNineExchange(network: seq<byte> -> DialResult, ipv6Text: IPv6 -> seq<byte>)
    ensures var name := [0x65, 0x78, 0x61, 0x6D, 0x70, 0x6C, 0x65, 0x2E, 0x63, 0x6F, 0x6D];
      var o := Resolve([5, 1, 0, 3, 0x09] + name + [0, 80], network, ipv6Text);
      && o.consumed == 16
      && o.dialed == Some(name[..9] + [0x3A] + Decimal(28525))
  {
    var name: seq<byte> := [0x65, 0x78, 0x61, 0x6D, 0x70, 0x6C, 0x65, 0x2E, 0x63, 0x6F, 0x6D];
    var request := [5, 1, 0, 3, 0x09] + name + [0, 80];
    RequestDomainTarget(request, network, ipv6Text);
    assert request[5..14] == name[..9];
    assert request[14] == 0x6F && request[15] == 0x6D;
  }
}
