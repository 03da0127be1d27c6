/** The two external collaborators of the handlers: the client connection
    (a byte stream read with io.ReadFull and written with Write) and the
    dialer that opens the outbound TCP connection. */
module Stream {
  import opened Wire

  /** The error a short io.ReadFull returns: EOF when nothing was left to
      read, UnexpectedEOF when only part of the buffer could be filled. */
  function ShortReadError(avail: seq<byte>): Error
  {
    if avail == [] then EOF else UnexpectedEOF
  }

  /** The client connection. `input` is everything the client sends before
      it closes its side; `pos` is how much of it has been read; `written` is
      everything written to the client so far (writes always succeed). */
  class Conn {
    const input: seq<byte>
    var pos: nat
    var written: seq<byte>

    ghost predicate Valid()
      reads this
    {
      pos <= |input|
    }

    /** The bytes not yet read. */
    ghost function Unread(): seq<byte>
      reads this
      requires Valid()
    {
      input[pos..]
    }

    constructor (input: seq<byte>)
      ensures Valid() && this.input == input && pos == 0 && written == []
    {
      this.input := input;
      pos := 0;
      written := [];
    }

    /** io.ReadFull with an n-byte buffer: the next n bytes, or, when fewer
        remain, an error after reading all that is left. */
    method ReadFull(n: nat) returns (r: Result<seq<byte>>)
      requires Valid()
      modifies this`pos
      ensures Valid()
      ensures n <= |old(Unread())| ==> pos == old(pos) + n && r == Ok(old(Unread())[..n])
      ensures n > |old(Unread())| ==> pos == |input| && r == Err(ShortReadError(old(Unread())))
    {
      if n <= |input| - pos {
        assert input[pos..][..n] == input[pos..pos + n];
        r := Ok(input[pos..pos + n]);
        pos := pos + n;
      } else {
        r := Err(ShortReadError(input[pos..]));
        pos := |input|;
      }
    }

    /** conn.Write */
    method Write(data: seq<byte>)
      modifies this`written
      ensures written == old(written) + data
    {
      written := written + data;
    }
  }

  /** Outcome of net.Dial: refused, or connected with a local address. */
  datatype DialResult = Refused | Connected(local: TCPAddr)

  /** net.Dial("tcp", target). What the network answers for each target is
      the oracle `network`; `attempts` records every target dialled. */
  class Dialer {
    const network: seq<byte> -> DialResult
    var attempts: seq<seq<byte>>

    constructor (network: seq<byte> -> DialResult)
      ensures this.network == network && attempts == []
    {
      this.network := network;
      attempts := [];
    }

    method Dial(target: seq<byte>) returns (r: DialResult)
      modifies this`attempts
      ensures r == network(target)
      ensures attempts == old(attempts) + [target]
    {
      r := network(target);
      attempts := attempts + [target];
    }
  }
}
