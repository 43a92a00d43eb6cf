/** The PROXY protocol headers that carry a visitor's address to a backend (relay/proxyproto.go
    ProxyHeader), with readers written from sections 2.1 and 2.2 of the HAProxy PROXY protocol
    specification. */
module ProxyHeader {
  import opened Streams

  /** net.TCPAddr: the IP is a byte slice of length 4 or 16; the empty slice stands for nil. */
  datatype TcpAddr = TcpAddr(ip: seq<Byte>, port: int)

  predicate IsIp(ip: seq<Byte>) {
    |ip| == 4 || |ip| == 16
  }

  predicate Usable(a: TcpAddr) {
    IsIp(a.ip) && 0 <= a.port <= 0xFFFF
  }

  const V4_IN_V6: seq<Byte> := [0, 0, 0, 0, 0, 0, 0, 0, 0, 0, 0xFF, 0xFF]

  function To4(ip: seq<Byte>): (v4: Option<seq<Byte>>)
    ensures v4.Some? ==> |v4.value| == 4
  {
    if |ip| == 4 then Some(ip)
    else if |ip| == 16 && ip[..12] == V4_IN_V6 then Some(ip[12..])
    else None
  }

  function To16(ip: seq<Byte>): (v6: seq<Byte>)
    ensures IsIp(ip) ==> |v6| == 16
  {
    if |ip| == 4 then V4_IN_V6 + ip else if |ip| == 16 then ip else []
  }

  predicate BothV4(src: TcpAddr, dst: TcpAddr) {
    To4(src.ip).Some? && To4(dst.ip).Some?
  }

  // ---- version 1: text ----

  predicate IsDigit(b: Byte) {
    48 <= b <= 57
  }

  function Dec(n: nat): (d: seq<Byte>)
    ensures d != [] && forall b :: b in d ==> IsDigit(b)
    ensures |d| <= (if n < 10 then 1 else if n < 100 then 2 else if n < 1000 then 3 else if n < 10000 then 4
        else if n < 100000 then 5 else |d|)
  {
    if n < 10 then [48 + n] else Dec(n / 10) + [48 + n % 10]
  }

  function Dotted(ip: seq<Byte>): seq<Byte>
    requires |ip| == 4
  {
    Dec(ip[0]) + ([46] + (Dec(ip[1]) + ([46] + (Dec(ip[2]) + ([46] + Dec(ip[3]))))))
  }

  const PROXY_TCP4: seq<Byte> := [80, 82, 79, 88, 89, 32, 84, 67, 80, 52, 32]  // "PROXY TCP4 "
  const PROXY_TCP6: seq<Byte> := [80, 82, 79, 88, 89, 32, 84, 67, 80, 54, 32]  // "PROXY TCP6 "
  const SP: seq<Byte> := [32]
  const CRLF: seq<Byte> := [13, 10]

  /** IP.String(): dotted decimal for anything To4 accepts, else the library's IPv6 text. */
  function IpText(ip: seq<Byte>, v6Text: seq<Byte> -> seq<Byte>): seq<Byte> {
    match To4(ip)
    case Some(v4) => Dotted(v4)
    case None => v6Text(ip)
  }

  function HeaderV1(src: TcpAddr, dst: TcpAddr, v6Text: seq<Byte> -> seq<Byte>): seq<Byte>
    requires src.port >= 0 && dst.port >= 0
  {
    (if BothV4(src, dst) then PROXY_TCP4 else PROXY_TCP6)
    + (IpText(src.ip, v6Text)
       + (SP + (IpText(dst.ip, v6Text) + (SP + (Dec(src.port) + (SP + (Dec(dst.port) + CRLF)))))))
  }

  function Expect(b: seq<Byte>, prefix: seq<Byte>): Option<seq<Byte>> {
    if prefix <= b then Some(b[|prefix|..]) else None
  }

  function DigitRun(b: seq<Byte>): (k: nat)
    ensures k <= |b| && forall i :: 0 <= i < k ==> IsDigit(b[i])
    ensures k < |b| ==> !IsDigit(b[k])
  {
    if b == [] || !IsDigit(b[0]) then 0 else 1 + DigitRun(b[1..])
  }

  function Value(digits: seq<Byte>): nat
    requires forall b :: b in digits ==> IsDigit(b)
  {
    if digits == [] then 0
    else
      var last := digits[|digits| - 1];
      assert IsDigit(last);
      10 * Value(digits[..|digits| - 1]) + (last - 48)
  }

  /** A decimal number no larger than max, as many digits as there are. */
  function ParseDec(b: seq<Byte>, max: nat): Option<(nat, seq<Byte>)> {
    var k := DigitRun(b);
    var digits := b[..k];
    if k == 0 || Value(digits) > max then None else Some((Value(digits), b[k..]))
  }

  function ParseByteDot(b: seq<Byte>): Option<(Byte, seq<Byte>)> {
    match ParseDec(b, 255)
    case None => None
    case Some((n, rest)) => match Expect(rest, [46]) case None => None case Some(r) => Some((n, r))
  }

  function ParseDotted(b: seq<Byte>): Option<(seq<Byte>, seq<Byte>)> {
    match ParseByteDot(b)
    case None => None
    case Some((b0, r0)) =>
      match ParseByteDot(r0)
      case None => None
      case Some((b1, r1)) =>
        match ParseByteDot(r1)
        case None => None
        case Some((b2, r2)) =>
          match ParseDec(r2, 255)
          case None => None
          case Some((b3, rest)) => Some(([b0, b1, b2, b3], rest))
  }

  function ParseDottedThen(b: seq<Byte>, mark: seq<Byte>): Option<(seq<Byte>, seq<Byte>)> {
    match ParseDotted(b)
    case None => None
    case Some((ip, rest)) => match Expect(rest, mark) case None => None case Some(r) => Some((ip, r))
  }

  function ParsePortThen(b: seq<Byte>, mark: seq<Byte>): Option<(nat, seq<Byte>)> {
    match ParseDec(b, 0xFFFF)
    case None => None
    case Some((port, rest)) => match Expect(rest, mark) case None => None case Some(r) => Some((port, r))
  }

  /** Section 2.1: source address, destination address, source port, destination port, CRLF. */
  function ParseV1(b: seq<Byte>): Option<(TcpAddr, TcpAddr, seq<Byte>)> {
    match Expect(b, PROXY_TCP4)
    case None => None
    case Some(r0) =>
      match ParseDottedThen(r0, SP)
      case None => None
      case Some((src, r1)) =>
        match ParseDottedThen(r1, SP)
        case None => None
        case Some((dst, r2)) =>
          match ParsePortThen(r2, SP)
          case None => None
          case Some((sport, r3)) =>
            match ParsePortThen(r3, CRLF)
            case None => None
            case Some((dport, rest)) => Some((TcpAddr(src, sport), TcpAddr(dst, dport), rest))
  }

  lemma ExpectConcat(prefix: seq<Byte>, rest: seq<Byte>)
    ensures Expect(prefix + rest, prefix) == Some(rest)
  {
  }

  lemma {:induction false} ValueInvertsDec(n: nat)
    ensures Value(Dec(n)) == n
  {
    if n >= 10 {
      ValueInvertsDec(n / 10);
      assert Dec(n)[..|Dec(n)| - 1] == Dec(n / 10);
    }
  }

  lemma {:induction false} DigitRunConcat(d: seq<Byte>, rest: seq<Byte>)
    requires forall b :: b in d ==> IsDigit(b)
    requires rest != [] && !IsDigit(rest[0])
    ensures DigitRun(d + rest) == |d|
  {
    if d == [] {
      assert d + rest == rest;
    } else {
      assert (d + rest)[1..] == d[1..] + rest;
      DigitRunConcat(d[1..], rest);
    }
  }

  lemma ParseDecInvertsDec(n: nat, max: nat, rest: seq<Byte>)
    requires n <= max && rest != [] && !IsDigit(rest[0])
    ensures ParseDec(Dec(n) + rest, max) == Some((n, rest))
  {
    DigitRunConcat(Dec(n), rest);
    assert (Dec(n) + rest)[..|Dec(n)|] == Dec(n) && (Dec(n) + rest)[|Dec(n)|..] == rest;
    ValueInvertsDec(n);
  }

  lemma ParseByteDotInverts(n: Byte, rest: seq<Byte>)
    ensures ParseByteDot(Dec(n) + ([46] + rest)) == Some((n, rest))
  {
    ParseDecInvertsDec(n, 255, [46] + rest);
    ExpectConcat([46], rest);
  }

  lemma Regroup(a: seq<Byte>, b: seq<Byte>, c: seq<Byte>)
    ensures (a + b) + c == a + (b + c)
  {
  }

  lemma DottedRegroups(ip: seq<Byte>, rest: seq<Byte>)
    requires |ip| == 4
    ensures Dotted(ip) + rest
        == Dec(ip[0]) + ([46] + (Dec(ip[1]) + ([46] + (Dec(ip[2]) + ([46] + (Dec(ip[3]) + rest))))))
  {
    var last := Dec(ip[2]) + ([46] + Dec(ip[3]));
    Regroup(Dec(ip[0]), [46] + (Dec(ip[1]) + ([46] + last)), rest);
    Regroup([46], Dec(ip[1]) + ([46] + last), rest);
    Regroup(Dec(ip[1]), [46] + last, rest);
    Regroup([46], last, rest);
    Regroup(Dec(ip[2]), [46] + Dec(ip[3]), rest);
    Regroup([46], Dec(ip[3]), rest);
  }

  lemma ParseDottedSteps(ip: seq<Byte>, b: seq<Byte>, r0: seq<Byte>, r1: seq<Byte>, r2: seq<Byte>, tail: seq<Byte>)
    requires |ip| == 4 && ParseByteDot(b) == Some((ip[0], r0)) && ParseByteDot(r0) == Some((ip[1], r1))
    requires ParseByteDot(r1) == Some((ip[2], r2)) && ParseDec(r2, 255) == Some((ip[3] as nat, tail))
    ensures ParseDotted(b) == Some((ip, tail))
  {
    assert ip == [ip[0], ip[1], ip[2], ip[3]];
  }

  lemma ParseDottedOf(ip: seq<Byte>, tail: seq<Byte>)
    requires |ip| == 4 && tail != [] && !IsDigit(tail[0])
    ensures ParseDotted(Dotted(ip) + tail) == Some((ip, tail))
  {
    var r2 := Dec(ip[3]) + tail;
    var r1 := Dec(ip[2]) + ([46] + r2);
    var r0 := Dec(ip[1]) + ([46] + r1);
    var b := Dec(ip[0]) + ([46] + r0);
    ParseDecInvertsDec(ip[3], 255, tail);
    ParseByteDotInverts(ip[2], r2);
    ParseByteDotInverts(ip[1], r1);
    ParseByteDotInverts(ip[0], r0);
    ParseDottedSteps(ip, b, r0, r1, r2, tail);
    DottedRegroups(ip, tail);
  }

  lemma ParseDottedInverts(ip: seq<Byte>, mark: seq<Byte>, rest: seq<Byte>)
    requires |ip| == 4 && mark != [] && !IsDigit(mark[0])
    ensures ParseDottedThen(Dotted(ip) + (mark + rest), mark) == Some((ip, rest))
  {
    ParseDottedOf(ip, mark + rest);
    ExpectConcat(mark, rest);
  }

  lemma ParsePortInverts(port: nat, mark: seq<Byte>, rest: seq<Byte>)
    requires port <= 0xFFFF && mark != [] && !IsDigit(mark[0])
    ensures ParsePortThen(Dec(port) + (mark + rest), mark) == Some((port, rest))
  {
    ParseDecInvertsDec(port, 0xFFFF, mark + rest);
    ExpectConcat(mark, rest);
  }

  /** The ports and the end of the line, followed by what comes after them. */
  lemma PortsRegroup(sport: seq<Byte>, dport: seq<Byte>, rest: seq<Byte>)
    ensures (sport + (SP + (dport + CRLF))) + rest == sport + (SP + (dport + (CRLF + rest)))
  {
    Regroup(sport, SP + (dport + CRLF), rest);
    Regroup(SP, dport + CRLF, rest);
    Regroup(dport, CRLF, rest);
  }

  lemma HeaderV1Regroups(src: TcpAddr, dst: TcpAddr, v6Text: seq<Byte> -> seq<Byte>, rest: seq<Byte>)
    requires Usable(src) && Usable(dst) && BothV4(src, dst)
    ensures HeaderV1(src, dst, v6Text) + rest
         == PROXY_TCP4 + (Dotted(To4(src.ip).value) + (SP + (Dotted(To4(dst.ip).value) + (SP
            + (Dec(src.port) + (SP + (Dec(dst.port) + (CRLF + rest))))))))
  {
    var s, d := Dotted(To4(src.ip).value), Dotted(To4(dst.ip).value);
    var ports := Dec(src.port) + (SP + (Dec(dst.port) + CRLF));
    Regroup(PROXY_TCP4, s + (SP + (d + (SP + ports))), rest);
    Regroup(s, SP + (d + (SP + ports)), rest);
    Regroup(SP, d + (SP + ports), rest);
    Regroup(d, SP + ports, rest);
    Regroup(SP, ports, rest);
    PortsRegroup(Dec(src.port), Dec(dst.port), rest);
  }

  lemma DottedIsShort(ip: seq<Byte>)
    requires |ip| == 4
    ensures |Dotted(ip)| <= 15
  {
  }

  lemma V1IsShort(src: TcpAddr, dst: TcpAddr, v6Text: seq<Byte> -> seq<Byte>)
    requires Usable(src) && Usable(dst) && BothV4(src, dst)
    ensures |HeaderV1(src, dst, v6Text)| <= 56
  {
    DottedIsShort(To4(src.ip).value);
    DottedIsShort(To4(dst.ip).value);
  }

  /** For two IPv4 addresses (also IPv4-mapped ones) the text header reads back as those addresses and
      ports, ends exactly where the payload begins, and has at most 56 bytes. */
  lemma V1RoundTrip(src: TcpAddr, dst: TcpAddr, v6Text: seq<Byte> -> seq<Byte>, rest: seq<Byte>)
    requires Usable(src) && Usable(dst) && BothV4(src, dst)
    ensures ParseV1(HeaderV1(src, dst, v6Text) + rest)
         == Some((TcpAddr(To4(src.ip).value, src.port), TcpAddr(To4(dst.ip).value, dst.port), rest))
    ensures |HeaderV1(src, dst, v6Text)| <= 56
  {
    V1IsShort(src, dst, v6Text);
    var s, d := To4(src.ip).value, To4(dst.ip).value;
    HeaderV1Regroups(src, dst, v6Text, rest);
    var r3 := Dec(dst.port) + (CRLF + rest);
    var r2 := Dec(src.port) + (SP + r3);
    var r1 := Dotted(d) + (SP + r2);
    ExpectConcat(PROXY_TCP4, Dotted(s) + (SP + r1));
    ParseDottedInverts(s, SP, r1);
    ParseDottedInverts(d, SP, r2);
    ParsePortInverts(src.port, SP, r3);
    ParsePortInverts(dst.port, CRLF, rest);
  }

  // ---- version 2: binary ----

  const SIGNATURE: seq<Byte> := [13, 10, 13, 10, 0, 13, 10, 81, 85, 73, 84, 10]

  /** The declared length is that of the code: 16 for two IPv4 addresses, though only 12 bytes follow. */
  function HeaderV2(src: TcpAddr, dst: TcpAddr): seq<Byte> {
    (if BothV4(src, dst) then SIGNATURE + [0x21] + [0x11] + Be16(16) + To4(src.ip).value + To4(dst.ip).value
     else SIGNATURE + [0x21] + [0x22] + Be16(36) + To16(src.ip) + To16(dst.ip))
    + Be16(src.port % 0x1_0000) + Be16(dst.port % 0x1_0000)
  }

  /** Section 2.2: a 16-byte fixed part whose last field is the length of what follows, then that many
      bytes, of which TCP over IPv4 uses the first 12 and TCP over IPv6 the first 36. */
  function ParseV2(b: seq<Byte>): Option<(TcpAddr, TcpAddr, seq<Byte>)> {
    if |b| < 16 || b[..12] != SIGNATURE || b[12] != 0x21 then None
    else
      var n := FromBe16(b[14..16]);
      if |b| < 16 + n then None
      else if b[13] == 0x11 && n >= 12 then
        Some((TcpAddr(b[16..20], FromBe16(b[24..26])), TcpAddr(b[20..24], FromBe16(b[26..28])), b[16 + n..]))
      else if b[13] == 0x22 && n >= 36 then
        Some((TcpAddr(b[16..32], FromBe16(b[48..50])), TcpAddr(b[32..48], FromBe16(b[50..52])), b[16 + n..]))
      else None
  }

  function Normal(src: TcpAddr, dst: TcpAddr, a: TcpAddr): TcpAddr {
    if BothV4(src, dst) && To4(a.ip).Some? then a.(ip := To4(a.ip).value) else a.(ip := To16(a.ip))
  }

  lemma Slices(f: seq<Byte>, s: seq<Byte>, d: seq<Byte>, p: seq<Byte>, q: seq<Byte>, rest: seq<Byte>)
    requires |f| == |s| == |d| == 16 && |p| == |q| == 2
    ensures var b := f + s + d + p + q + rest;
            && b[..16] == f && b[16..32] == s && b[32..48] == d && b[48..50] == p && b[50..52] == q && b[52..] == rest
  {
  }

  lemma FixedPart(fixed: seq<Byte>, b: seq<Byte>)
    requires fixed == SIGNATURE + [0x21] + [0x22] + Be16(36) && |b| >= 16 && b[..16] == fixed
    ensures b[..12] == SIGNATURE && b[12] == 0x21 && b[13] == 0x22 && b[14..16] == Be16(36)
  {
    assert fixed[..12] == SIGNATURE && fixed[14..] == Be16(36);
    assert b[..12] == b[..16][..12] && b[14..16] == b[..16][14..] && b[12] == b[..16][12] && b[13] == b[..16][13];
  }

  lemma V2Layout(src: TcpAddr, dst: TcpAddr, rest: seq<Byte>)
    requires Usable(src) && Usable(dst) && !BothV4(src, dst)
    ensures var b := HeaderV2(src, dst) + rest;
            && |HeaderV2(src, dst)| == 52 && b[..12] == SIGNATURE && b[12] == 0x21 && b[13] == 0x22
            && b[14..16] == Be16(36) && b[16..32] == To16(src.ip) && b[32..48] == To16(dst.ip)
            && b[48..50] == Be16(src.port) && b[50..52] == Be16(dst.port) && b[52..] == rest
  {
    var fixed, b := SIGNATURE + [0x21] + [0x22] + Be16(36), HeaderV2(src, dst) + rest;
    Slices(fixed, To16(src.ip), To16(dst.ip), Be16(src.port), Be16(dst.port), rest);
    FixedPart(fixed, b);
  }

  /** A reader of the binary header gets both addresses and ports back and finds the payload intact
      exactly when the addresses are not both IPv4; such a header has exactly 52 bytes. For two IPv4
      addresses the declared length makes the reader swallow the first four bytes of the payload. */
  lemma V2RoundTripIff(src: TcpAddr, dst: TcpAddr, rest: seq<Byte>)
    requires Usable(src) && Usable(dst)
    ensures ParseV2(HeaderV2(src, dst) + rest) == Some((Normal(src, dst, src), Normal(src, dst, dst), rest))
       <==> !BothV4(src, dst)
    ensures !BothV4(src, dst) ==> |HeaderV2(src, dst)| == 52
  {
    if BothV4(src, dst) {
      var b := HeaderV2(src, dst) + rest;
      assert |HeaderV2(src, dst)| == 28;
      assert b[14..16] == Be16(16);
    } else {
      V2Layout(src, dst, rest);
    }
  }

  /** The header of either version, written piece by piece; None for a missing address or an unknown
      version. */
  method BuildHeader(version: int, src: TcpAddr, dst: TcpAddr, v6Text: seq<Byte> -> seq<Byte>)
    returns (h: Option<seq<Byte>>)
    requires src.port >= 0 && dst.port >= 0
    ensures h == if src.ip == [] || dst.ip == [] then None
                 else if version == 1 then Some(HeaderV1(src, dst, v6Text))
                 else if version == 2 then Some(HeaderV2(src, dst))
                 else None
  {
    if src.ip == [] || dst.ip == [] {
      return None;
    }
    var src4, dst4 := To4(src.ip), To4(dst.ip);
    if version == 1 {
      var family := PROXY_TCP4;
      if src4.None? || dst4.None? {
        family := PROXY_TCP6;
      }
      return Some(family + (IpText(src.ip, v6Text) + (SP + (IpText(dst.ip, v6Text)
                  + (SP + (Dec(src.port) + (SP + (Dec(dst.port) + CRLF))))))));
    }
    if version != 2 {
      return None;
    }
    var b := SIGNATURE;
    if src4.Some? && dst4.Some? {
      b := b + [0x21];
      b := b + [0x11];
      b := b + Be16(16);
      b := b + src4.value;
      b := b + dst4.value;
    } else {
      b := b + [0x21];
      b := b + [0x22];
      b := b + Be16(36);
      b := b + To16(src.ip);
      b := b + To16(dst.ip);
    }
    b := b + Be16(src.port % 0x1_0000);
    b := b + Be16(dst.port % 0x1_0000);
    return Some(b);
  }
}
