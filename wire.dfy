/** Wire-level vocabulary of the SOCKS5 control path (RFC 1928): bytes, the
    protocol constants, the error kinds, the fixed 10-byte reply frame, and the
    client-side encoders of the greeting and the CONNECT request, which serve as
    the inverse of what the server parses. */
module Wire {

  type byte = b: int | 0 <= b < 0x100
  type uint16 = v: int | 0 <= v < 0x1_0000

  type IPv4 = s: seq<byte> | |s| == 4 witness [0, 0, 0, 0]
  type IPv6 = s: seq<byte> | |s| == 16
    witness [0, 0, 0, 0, 0, 0, 0, 0, 0, 0, 0, 0, 0, 0, 0, 0]

  // Protocol constants of the server.
  const Version: byte := 0x05
  const NoAuth: byte := 0x00
  const ConnectCmd: byte := 0x01
  const IPv4Addr: byte := 0x01
  const DomainAddr: byte := 0x03
  const IPv6Addr: byte := 0x04

  // Method-selection byte meaning "no acceptable methods" (RFC 1928 section 3).
  const NoAcceptableMethods: byte := 0xFF

  // Reply codes the server writes, named as in RFC 1928 section 6.
  const Succeeded: byte := 0x00
  const ConnectionRefused: byte := 0x05
  const CommandNotSupported: byte := 0x07
  const AddressTypeNotSupported: byte := 0x08

  datatype Option<+T> = None | Some(value: T)

  /** The errors the handlers return; EOF and UnexpectedEOF are the two errors
      of a short io.ReadFull (nothing read at all, or only part). */
  datatype Error =
    | EOF
    | UnexpectedEOF
    | VersionMismatch
    | NoAcceptableAuthMethod
    | UnsupportedCommand
    | UnsupportedAddressType
    | DialError

  datatype Result<+T> = Ok(value: T) | Err(error: Error)

  /** The IP of a local TCP address as `To4` sees it: four octets, or not IPv4. */
  datatype BoundIP = BoundIPv4(octets: IPv4) | NotIPv4

  /** A local TCP address; the port is Go's `int`, truncated when encoded. */
  datatype TCPAddr = TCPAddr(ip: BoundIP, port: int)

  /** Go's conversion `uint16(port)`: keep the low 16 bits (two's complement). */
  function Truncate16(port: int): uint16
  {
    port % 0x1_0000
  }

  /** binary.BigEndian.PutUint16 */
  function BigEndian16(v: uint16): seq<byte>
  {
    [v / 0x100, v % 0x100]
  }

  /** binary.BigEndian.Uint16 */
  function Uint16Of(hi: byte, lo: byte): uint16
  {
    hi * 0x100 + lo
  }

  /** BND.ADDR of a reply: the local IPv4 octets, or zeros. */
  function BoundAddrField(addr: Option<TCPAddr>): IPv4
  {
    if addr.Some? && addr.value.ip.BoundIPv4? then addr.value.ip.octets else [0, 0, 0, 0]
  }

  /** BND.PORT of a reply: the truncated local port, or zeros without an address. */
  function BoundPortField(addr: Option<TCPAddr>): seq<byte>
  {
    if addr.Some? then BigEndian16(Truncate16(addr.value.port)) else [0, 0]
  }

  /** The reply frame: VER, REP, RSV, ATYP = IPv4, BND.ADDR, BND.PORT. */
  function ReplyBytes(status: byte, addr: Option<TCPAddr>): seq<byte>
  {
    [Version, status, 0x00, IPv4Addr] + BoundAddrField(addr) + BoundPortField(addr)
  }

  /** What a client reads out of bytes 4..9 of a reply: address and port. */
  function DecodeBound(field: seq<byte>): (IPv4, uint16)
    requires |field| == 6
  {
    (field[..4], Uint16Of(field[4], field[5]))
  }

  /** A client greeting offering `methods` (RFC 1928 section 3). */
  function Greeting(methods: seq<byte>): seq<byte>
    requires |methods| < 0x100
  {
    [Version, |methods|] + methods
  }

  /** Destination of a CONNECT request, as a client states it. */
  datatype Destination =
    | ToIPv4(a: IPv4)
    | ToDomain(name: seq<byte>)
    | ToIPv6(b: IPv6)

  predicate ValidDestination(d: Destination)
  {
    d.ToDomain? ==> |d.name| < 0x100
  }

  function AddressType(d: Destination): byte
  {
    match d
    case ToIPv4(_) => IPv4Addr
    case ToDomain(_) => DomainAddr
    case ToIPv6(_) => IPv6Addr
  }

  function AddressField(d: Destination): seq<byte>
    requires ValidDestination(d)
  {
    match d
    case ToIPv4(a) => a
    case ToDomain(name) => [|name|] + name
    case ToIPv6(b) => b
  }

  /** A request with command `cmd` to `d`:`port` (RFC 1928 section 4). */
  function Request(cmd: byte, d: Destination, port: uint16): seq<byte>
    requires ValidDestination(d)
  {
    [Version, cmd, 0x00, AddressType(d)] + AddressField(d) + BigEndian16(port)
  }
}
