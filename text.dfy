/** Text the request handler builds: the decimal form of a number (`%d` and
    the octets of an IPv4 address), the dotted-decimal form of an IPv4 address,
    and the dial target `host:port`. Each comes with a parser that inverts it. */
module Text {
  import opened Wire

  const Zero: byte := 0x30   // '0'
  const Dot: byte := 0x2E    // '.'
  const Colon: byte := 0x3A  // ':'

  predicate IsDigit(b: byte)
  {
    Zero <= b <= Zero + 9
  }

  predicate AllDigits(s: seq<byte>)
  {
    forall i :: 0 <= i < |s| ==> IsDigit(s[i])
  }

  /** Decimal form of `n`, without leading zeros. */
  function Decimal(n: nat): seq<byte>
    decreases n
  {
    if n < 10 then [Zero + n] else Decimal(n / 10) + [Zero + n % 10]
  }

  /** The number a string of decimal digits denotes. */
  function DigitsValue(s: seq<byte>): nat
    requires AllDigits(s)
  {
    if s == [] then 0 else DigitsValue(s[..|s| - 1]) * 10 + (s[|s| - 1] - Zero)
  }

  lemma {:induction false} DecimalIsCanonical(n: nat)
    ensures |Decimal(n)| >= 1 && AllDigits(Decimal(n))
    ensures Decimal(n)[0] == Zero ==> n == 0
    decreases n
  {
    if n >= 10 {
      DecimalIsCanonical(n / 10);
    }
  }

  lemma {:induction false} DecimalRoundTrip(n: nat)
    ensures AllDigits(Decimal(n)) && DigitsValue(Decimal(n)) == n
    decreases n
  {
    DecimalIsCanonical(n);
    if n >= 10 {
      var s := Decimal(n);
      assert s[..|s| - 1] == Decimal(n / 10);
      DecimalRoundTrip(n / 10);
    }
  }

  /** net.IP.String of a 4-byte address: dotted decimal. */
  function Dotted(a: IPv4): seq<byte>
  {
    Decimal(a[0]) + [Dot] + Decimal(a[1]) + [Dot] + Decimal(a[2]) + [Dot] + Decimal(a[3])
  }

  /** The pieces of `s` between occurrences of `sep`. */
  function Split(s: seq<byte>, sep: byte): (r: seq<seq<byte>>)
    ensures |r| >= 1
  {
    if s == [] then [[]]
    else
      var rest := Split(s[1..], sep);
      if s[0] == sep then [[]] + rest else [[s[0]] + rest[0]] + rest[1..]
  }

  lemma {:induction false} SplitWithout(x: seq<byte>, sep: byte)
    requires sep !in x
    ensures Split(x, sep) == [x]
  {
    if x != [] {
      SplitWithout(x[1..], sep);
      assert [x[0]] + x[1..] == x;
    }
  }

  lemma {:induction false} SplitAt(x: seq<byte>, sep: byte, y: seq<byte>)
    requires sep !in x
    ensures Split(x + [sep] + y, sep) == [x] + Split(y, sep)
  {
    var s := x + [sep] + y;
    if x == [] {
      assert s[1..] == y;
    } else {
      assert s[1..] == x[1..] + [sep] + y;
      SplitAt(x[1..], sep, y);
      assert [x[0]] + x[1..] == x;
    }
  }

  predicate IsOctetText(s: seq<byte>)
  {
    |s| >= 1 && AllDigits(s) && DigitsValue(s) < 0x100
  }

  /** Reads dotted-decimal text back into four octets. */
  function ParseDotted(s: seq<byte>): Option<IPv4>
  {
    var f := Split(s, Dot);
    if |f| == 4 && IsOctetText(f[0]) && IsOctetText(f[1]) && IsOctetText(f[2]) && IsOctetText(f[3])
    then Some([DigitsValue(f[0]), DigitsValue(f[1]), DigitsValue(f[2]), DigitsValue(f[3])])
    else None
  }

  lemma DecimalHasNo(n: nat, b: byte)
    requires !IsDigit(b)
    ensures b !in Decimal(n)
  {
    DecimalIsCanonical(n);
  }

  lemma {:induction false} SplitDotted(a: IPv4)
    ensures Split(Dotted(a), Dot) == [Decimal(a[0]), Decimal(a[1]), Decimal(a[2]), Decimal(a[3])]
  {
    var d0, d1, d2, d3 := Decimal(a[0]), Decimal(a[1]), Decimal(a[2]), Decimal(a[3]);
    DecimalHasNo(a[0], Dot);
    DecimalHasNo(a[1], Dot);
    DecimalHasNo(a[2], Dot);
    DecimalHasNo(a[3], Dot);
    assert Dotted(a) == d0 + [Dot] + (d1 + [Dot] + (d2 + [Dot] + d3));
    SplitAt(d0, Dot, d1 + [Dot] + (d2 + [Dot] + d3));
    SplitAt(d1, Dot, d2 + [Dot] + d3);
    SplitAt(d2, Dot, d3);
    SplitWithout(d3, Dot);
  }

  lemma OctetText(b: byte)
    ensures IsOctetText(Decimal(b)) && DigitsValue(Decimal(b)) == b
  {
    DecimalIsCanonical(b);
    DecimalRoundTrip(b);
  }

  lemma {:induction false} DottedRoundTrip(a: IPv4)
    ensures ParseDotted(Dotted(a)) == Some(a)
  {
    SplitDotted(a);
    OctetText(a[0]);
    OctetText(a[1]);
    OctetText(a[2]);
    OctetText(a[3]);
    assert [a[0], a[1], a[2], a[3]] == a;
  }

  /** fmt.Sprintf("%s:%d", host, port) */
  function JoinTarget(host: seq<byte>, port: uint16): seq<byte>
  {
    host + [Colon] + Decimal(port)
  }

  /** Index of the last occurrence of `b` in `s`. */
  function LastIndexOf(s: seq<byte>, b: byte): (r: Option<nat>)
    ensures r.Some? ==> r.value < |s| && s[r.value] == b
  {
    if s == [] then None
    else if s[|s| - 1] == b then Some(|s| - 1)
    else LastIndexOf(s[..|s| - 1], b)
  }

  lemma {:induction false} LastIndexOfAfter(x: seq<byte>, b: byte, y: seq<byte>)
    requires b !in y
    ensures LastIndexOf(x + [b] + y, b) == Some(|x|)
    decreases |y|
  {
    var s := x + [b] + y;
    if y != [] {
      assert s[..|s| - 1] == x + [b] + y[..|y| - 1];
      assert s[|s| - 1] == y[|y| - 1];
      LastIndexOfAfter(x, b, y[..|y| - 1]);
    }
  }

  /** Splits a dial target at its last colon into host text and port number. */
  function SplitTarget(t: seq<byte>): Option<(seq<byte>, nat)>
  {
    match LastIndexOf(t, Colon)
    case None => None
    case Some(i) =>
      if |t[i + 1..]| >= 1 && AllDigits(t[i + 1..]) then Some((t[..i], DigitsValue(t[i + 1..])))
      else None
  }

  lemma {:induction false} TargetRoundTrip(host: seq<byte>, port: uint16)
    ensures SplitTarget(JoinTarget(host, port)) == Some((host, port))
  {
    var t := JoinTarget(host, port);
    DecimalHasNo(port, Colon);
    LastIndexOfAfter(host, Colon, Decimal(port));
    assert t[..|host|] == host;
    assert t[|host| + 1..] == Decimal(port);
    DecimalIsCanonical(port);
    DecimalRoundTrip(port);
  }
}
