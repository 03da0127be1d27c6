# SOCKS5 control path, modelled in Dafny

This project models the control path of a small SOCKS5 proxy server written in Go
(RFC 1928). The path has three steps:

- **Method negotiation** (`handleHandshake`, RFC 1928 section 3). The server reads
  the 2-byte greeting header and then exactly N method bytes. It checks the version
  and looks for method 0x00 ("no authentication required"). It then writes
  `[5, 0x00]` or `[5, 0xFF]`.
- **Request parsing and dialling** (`handleRequest`, RFC 1928 sections 4 and 5). The
  server reads the 4-byte request header and checks the version, then the command.
  It decodes the IPv4, domain or IPv6 address and the big-endian port, dials
  `host:port`, and writes a reply.
- **Reply encoding** (`sendReply`, RFC 1928 section 6). The server fills a fixed
  10-byte reply. A bound address that is not IPv4 becomes zeros.

The model is imperative, in the shape of the Go code:

- `Stream.Conn` is the client connection. It holds the input bytes, a read cursor
  `pos` and an append-only log `written`. `Conn.ReadFull` behaves like `io.ReadFull`:
  it reads exactly n bytes, or, when fewer remain, it reads all that is left and
  fails with `EOF` (nothing was left) or `UnexpectedEOF` (part was left).
- `Stream.Dialer` stands for `net.Dial`. A constant oracle `network` gives the
  network's answer for each target: refused, or connected with a local TCP address.
  The field `attempts` logs every target dialled.
- The methods `Socks.HandleHandshake`, `Socks.HandleRequest` and `Socks.SendReply`
  follow the Go functions one read and one write at a time.
- Each handler is proved equal to a function of the bytes the client sent:
  `Socks.Negotiate`, `Socks.Resolve` and `Wire.ReplyBytes`. These functions give the
  bytes consumed, the bytes written, the target dialled and the result.
- The lemmas in `SocksProperties` state the protocol's promises about those
  functions. Two of them are round trips with client-side encoders (`Wire.Greeting`,
  `Wire.Request`).
- `Text` models the text the server builds: `%d`, dotted-decimal IPv4 and
  `host:port`. Each has a parser that inverts it.

Go strings are byte strings, so host names and dial targets are `seq<byte>`.

Files: `wire.dfy` (bytes, constants, errors, reply frame, client encoders),
`text.dfy` (decimal, dotted-decimal and target text), `stream.dfy` (connection and
dialer), `socks.dfy` (the handlers), `properties.dfy` (the properties).

Where the specification and the code differ, the model follows the code:

- The specification says a failed write of the method selection fails with an I/O
  error. The code ignores the result of the rejection write (main.go:83) and of
  every reply write (main.go:174).
- The specification calls status 0x05 "host unreachable / general failure". RFC 1928
  section 6 defines 0x05 as "connection refused". The code writes 0x05 on any dial
  error, and the model names this constant `ConnectionRefused`.
- The specification's worked domain example sends length byte 0x09 before the 11
  bytes of `example.com`. The code takes exactly 9 bytes, so the host would be
  `example.c` and the port 0x6F6D. `SocksProperties.DomainLengthNineExchange` shows
  this, and `SocksProperties.ConnectDomainExchange` shows the same request with
  length 0x0B.

## Model

| member | source | states |
|---|---|---|
| Socks.OffersNoAuth | main.go:74-80 | the scan of the offered methods returns true exactly when 0x00 occurs among them, at any position |
| Socks.HandleHandshake | main.go:58-89 | the bytes consumed, the bytes written and the error returned are exactly those of `Negotiate` on the unread input |
| Socks.ReplyBuffer | main.go:160-171 | the 10-byte buffer filled in place (header stores, `copy` of the IPv4 octets, `PutUint16` of the port) equals `ReplyBytes(status, addr)` |
| Socks.SendReply | main.go:159-175 | appends exactly `ReplyBytes(status, addr)` to what was written, and reads nothing |
| Socks.ReadDestination | main.go:106-144 | the address-type switch and the port read consume and return exactly what `DecodeDestination` gives for the unread input |
| Socks.HandleRequest | main.go:91-157 | consumed bytes, written bytes and result equal `Resolve` on the unread input; the dial log grows by exactly the target `Resolve` dials, and by nothing when it dials none |
| Stream.Conn.ReadFull | main.go:93-95 | `io.ReadFull`: the next n bytes when n remain; otherwise all remaining input is consumed and the error is EOF (none left) or UnexpectedEOF (some left) |
| Stream.Conn.Write | main.go:87 | a write appends its bytes to the client stream |
| Stream.Dialer.Dial | main.go:147 | a dial returns the network's answer for the target and records the attempt |
| SocksProperties.GreetingVersionMismatch | main.go:59-66 | a greeting whose first byte is not 5 is dropped after exactly 2 bytes, with nothing written and a version error |
| SocksProperties.HandshakeSelection | main.go:68-88 | with version 5 and N the second byte: exactly 2+N bytes are consumed; `[5,0x00]` is written if and only if 0x00 is among the N method bytes, else `[5,0xFF]`; success if and only if `[5,0x00]` was written, else the no-acceptable-method error |
| SocksProperties.HandshakeShortRead | main.go:59-72 | a greeting cut short in its header or its method list fails with EOF or UnexpectedEOF after consuming all input, with nothing written |
| SocksProperties.HandshakeOfGreeting | main.go:58-89 | for any method list a client encodes, followed by anything, exactly the greeting is consumed and the selection is 0x00 exactly when the list offers 0x00 |
| SocksProperties.RequestVersionMismatch | main.go:92-99 | a request whose first byte is not 5 fails after exactly 4 bytes, with no reply and no dial |
| SocksProperties.RequestCommandNotSupported | main.go:101-104 | version 5 with a command other than 0x01 writes exactly one reply with status 0x07 after the 4 header bytes, whatever the address type, and nothing is dialled |
| SocksProperties.RequestAddressTypeNotSupported | main.go:135-137 | CONNECT with an address type outside {1,3,4} writes exactly one reply with status 0x08 after the header, and nothing is dialled |
| SocksProperties.RequestShortRead | main.go:110-143 | a CONNECT request shorter than its address type declares fails with EOF or UnexpectedEOF after consuming all input, with no reply and no dial |
| SocksProperties.RequestIPv4Target | main.go:110-146 | for address type 1, 10 bytes are consumed and the target dialled is the dotted-decimal form of bytes 4-7, ':', and the decimal of 256*b8 + b9 |
| SocksProperties.RequestDomainTarget | main.go:117-146 | for address type 3 with length byte L, 7+L bytes are consumed and the host dialled is exactly the L bytes after the length byte, followed by ':' and the decimal port |
| SocksProperties.RequestIPv6Target | main.go:128-146 | for address type 4, 22 bytes are consumed and the target is the text of the 16 address bytes, unbracketed, ':' and the decimal port |
| SocksProperties.RequestDialOutcome | main.go:147-156 | once a target is dialled, a refusal writes one reply with status 0x05 and no address and returns a dial error; a connection writes one reply with status 0x00 carrying the local address and returns the connection |
| SocksProperties.SuccessOnlyAfterConnect | main.go:147-156 | a connection is returned only for a target that was dialled and connected, and then the success reply with its local address is what was written |
| SocksProperties.RequestOfEncoded | main.go:91-146 | for any CONNECT request a client encodes, followed by anything, exactly the request is consumed and host:port of the encoded destination is dialled |
| SocksProperties.DialTargetSplits | main.go:146 | every dial target of a complete CONNECT request splits at its last ':' into host text and a port below 65536 |
| SocksProperties.ReplyLayout | main.go:159-174 | every reply is 10 bytes: 5, status, 0x00, 0x01, the four address bytes, the two port bytes |
| SocksProperties.ReplyWithoutAddress | main.go:166-172 | without an address, reply bytes 4-9 are all zero |
| SocksProperties.ReplyNotIPv4 | main.go:166-171 | with a local address that is not IPv4, bytes 4-7 are zero and the port is still written |
| SocksProperties.ReplyRoundTrip | main.go:166-171 | decoding bytes 4-9 of a reply gives back the original IPv4 address and port |
| SocksProperties.BigEndianRoundTrip | main.go:171 | `PutUint16` and `Uint16` are inverse |
| Text.DecimalIsCanonical | main.go:146 | `%d` text is a non-empty string of digits with no leading zero |
| Text.DecimalRoundTrip | main.go:146 | the value of the `%d` text of n is n |
| Text.DottedRoundTrip | main.go:115 | the dotted-decimal text of four octets parses back to the same four octets |
| Text.TargetRoundTrip | main.go:146 | `host:port` splits at its last ':' back into exactly that host and port, for any host |
| SocksProperties.ConnectLoopbackExchange | main.go:91-146 | greeting `05 01 00` selects no-auth, and CONNECT 127.0.0.1 port 80 dials the text "127.0.0.1:80" |
| SocksProperties.ConnectDomainExchange | main.go:117-146 | a domain request with length 0x0B, "example.com" and port 80 dials "example.com:80" |
| SocksProperties.DomainLengthNineExchange | main.go:117-144 | the same name sent with length byte 0x09 makes "example.c" the host and 0x6F6D the port, consuming 16 bytes |

## Left out

- `main` and `handleConnection` (main.go:21-56): the listener, the accept loop, one goroutine per connection, logging and the deferred closes are lifecycle glue.
- `relay` (main.go:177-191): concurrent `io.Copy` goroutines. It waits for only one of the two `done` signals (main.go:190), so nothing here claims that both directions complete.
- Socks.HandleHandshake: writes always succeed, so the write error that main.go:87-88 returns on acceptance does not appear. The write errors at main.go:83 and main.go:174 are ignored by the code itself.
- Stream.Conn.ReadFull: the client stream ends only in end-of-file. Transport errors such as a reset connection are not modelled. The partial reads that `io.ReadFull` loops over are one step.
- Stream.Dialer.Dial: real DNS and TCP are an oracle. Each target always gets the same answer, and the dialler's error is not distinguished beyond "refused".
- The text form of a 16-byte address (`net.IP.String`, main.go:133) is the parameter `ipv6Text`, because its rules belong to the Go standard library. The target is formed without brackets (main.go:146). Nothing here claims such a target can be dialled.
- `addr.IP.To4()` (main.go:167) is folded into what the dial oracle reports: four octets, or not IPv4. `Wire.Truncate16` models the `uint16` conversion of the port.
- The connection returned on success is modelled by its target text and its local address.
