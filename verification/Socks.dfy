/** The SOCKS5 handshake of the exit proxy (client/socks5.go handleSocks): CONNECT only, no
    authentication, as sections 3 to 6 of RFC 1928 lay it out. */
module Socks {
  import opened Streams

  datatype Dest = IPv4(addr: seq<Byte>) | Domain(name: seq<Byte>) | IPv6(addr: seq<Byte>)

  /** How a handshake ends: dropped without a further word, no common method, turned down with a
      reply code, or a request to connect. */
  datatype Verdict = Dropped | NoMethod | TurnedDown(code: Byte) | Connect(dest: Dest, port: int)

  const NO_AUTH: seq<Byte> := [5, 0]
  const NO_METHOD: seq<Byte> := [5, 0xFF]

  function Reply(code: Byte): seq<Byte> {
    [5, code, 0, 1, 0, 0, 0, 0, 0, 0]
  }

  function AddressType(d: Dest): Byte {
    match d
    case IPv4(_) => 1
    case Domain(_) => 3
    case IPv6(_) => 4
  }

  predicate Valid(d: Dest) {
    match d
    case IPv4(addr) => |addr| == 4
    case Domain(name) => |name| <= 255
    case IPv6(addr) => |addr| == 16
  }

  function EncodeDest(d: Dest): seq<Byte>
    requires Valid(d)
  {
    match d
    case IPv4(addr) => addr
    case Domain(name) => [|name|] + name
    case IPv6(addr) => addr
  }

  /** What a conforming client sends before its first byte of payload. */
  function Encode(methods: seq<Byte>, reserved: Byte, d: Dest, port: int): seq<Byte>
    requires |methods| <= 255 && Valid(d) && 0 <= port <= 0xFFFF
  {
    [5, |methods|] + (methods + ([5, 1, reserved, AddressType(d)] + (EncodeDest(d) + Be16(port))))
  }

  // ---- the handshake as a function of the bytes to come ----

  /** The first n bytes and what follows them. */
  function Take(b: seq<Byte>, n: nat): Option<(seq<Byte>, seq<Byte>)> {
    if |b| < n then None else Some((b[..n], b[n..]))
  }

  function ParseDest(atyp: Byte, b: seq<Byte>): Option<(Dest, seq<Byte>)>
    requires atyp in {1, 3, 4}
  {
    if atyp == 1 then
      match Take(b, 4) case None => None case Some((addr, rest)) => Some((IPv4(addr), rest))
    else if atyp == 4 then
      match Take(b, 16) case None => None case Some((addr, rest)) => Some((IPv6(addr), rest))
    else
      match Take(b, 1)
      case None => None
      case Some((n, after)) =>
        match Take(after, n[0]) case None => None case Some((name, rest)) => Some((Domain(name), rest))
  }

  /** The verdict on a request, and the bytes left unread if it is to connect. */
  function ParseRequest(b: seq<Byte>): (Verdict, seq<Byte>) {
    match Take(b, 4)
    case None => (Dropped, [])
    case Some((req, after)) =>
      if req[0] != 5 then (Dropped, [])
      else if req[1] != 1 then (TurnedDown(7), [])
      else if req[3] !in {1, 3, 4} then (TurnedDown(1), [])
      else
        match ParseDest(req[3], after)
        case None => (Dropped, [])
        case Some((dest, tail)) =>
          match Take(tail, 2)
          case None => (Dropped, [])
          case Some((port, rest)) => (Connect(dest, FromBe16(port)), rest)
  }

  /** The methods a version 5 client offers, and the bytes after them. */
  function ParseGreeting(b: seq<Byte>): Option<(seq<Byte>, seq<Byte>)> {
    match Take(b, 2)
    case None => None
    case Some((head, after)) => if head[0] != 5 then None else Take(after, head[1])
  }

  function Handshake(b: seq<Byte>): (Verdict, seq<Byte>) {
    match ParseGreeting(b)
    case None => (Dropped, [])
    case Some((methods, request)) =>
      if 0 !in methods then (NoMethod, []) else ParseRequest(request)
  }

  // ---- parsing inverts encoding ----

  lemma TakeOfConcat(a: seq<Byte>, b: seq<Byte>)
    ensures Take(a + b, |a|) == Some((a, b))
  {
    assert (a + b)[..|a|] == a && (a + b)[|a|..] == b;
  }

  lemma ParseDestInvertsEncode(d: Dest, rest: seq<Byte>)
    requires Valid(d)
    ensures ParseDest(AddressType(d), EncodeDest(d) + rest) == Some((d, rest))
  {
    match d
    case IPv4(addr) => TakeOfConcat(addr, rest);
    case IPv6(addr) => TakeOfConcat(addr, rest);
    case Domain(name) =>
      assert [|name|] + name + rest == [|name|] + (name + rest);
      TakeOfConcat([|name|], name + rest);
      TakeOfConcat(name, rest);
  }

  lemma EncodeInvertsParseDest(atyp: Byte, b: seq<Byte>)
    requires atyp in {1, 3, 4}
    ensures match ParseDest(atyp, b)
            case None => true
            case Some((d, rest)) => Valid(d) && AddressType(d) == atyp && EncodeDest(d) + rest == b
  {
  }

  function EncodeRequest(reserved: Byte, d: Dest, port: int, rest: seq<Byte>): seq<Byte>
    requires Valid(d) && 0 <= port <= 0xFFFF
  {
    [5, 1, reserved, AddressType(d)] + (EncodeDest(d) + (Be16(port) + rest))
  }

  lemma EncodeRegroups(methods: seq<Byte>, reserved: Byte, d: Dest, port: int, rest: seq<Byte>)
    requires |methods| <= 255 && Valid(d) && 0 <= port <= 0xFFFF
    ensures Encode(methods, reserved, d, port) + rest
         == [5, |methods|] + (methods + EncodeRequest(reserved, d, port, rest))
  {
  }

  lemma ParseRequestInvertsEncode(reserved: Byte, d: Dest, port: int, rest: seq<Byte>)
    requires Valid(d) && 0 <= port <= 0xFFFF
    ensures ParseRequest(EncodeRequest(reserved, d, port, rest)) == (Connect(d, port), rest)
  {
    var tail := Be16(port) + rest;
    TakeOfConcat([5, 1, reserved, AddressType(d)], EncodeDest(d) + tail);
    ParseDestInvertsEncode(d, tail);
    TakeOfConcat(Be16(port), rest);
  }

  /** For all three address types, any list of methods that offers "no authentication", and whatever
      payload follows: the handshake yields the encoded destination and port and consumes exactly the
      handshake bytes. */
  lemma HandshakeInvertsEncode(methods: seq<Byte>, reserved: Byte, d: Dest, port: int, rest: seq<Byte>)
    requires |methods| <= 255 && Valid(d) && 0 <= port <= 0xFFFF && 0 in methods
    ensures Handshake(Encode(methods, reserved, d, port) + rest) == (Connect(d, port), rest)
  {
    var request := EncodeRequest(reserved, d, port, rest);
    EncodeRegroups(methods, reserved, d, port, rest);
    TakeOfConcat([5, |methods|], methods + request);
    TakeOfConcat(methods, request);
    ParseRequestInvertsEncode(reserved, d, port, rest);
  }

  lemma EncodeInvertsParseRequest(b: seq<Byte>)
    requires ParseRequest(b).0.Connect?
    ensures var (Connect(d, port), rest) := ParseRequest(b);
            Valid(d) && 0 <= port <= 0xFFFF && |b| >= 3 && b == EncodeRequest(b[2], d, port, rest)
  {
    var (Connect(d, port), rest) := ParseRequest(b);
    EncodeInvertsParseDest(b[3], b[4..]);
    var tail := ParseDest(b[3], b[4..]).value.1;
    assert tail == tail[..2] + tail[2..];
    assert b[..4] == [5, 1, b[2], AddressType(d)];
    assert b == b[..4] + b[4..];
  }

  lemma GreetingShape(b: seq<Byte>)
    requires ParseGreeting(b).Some?
    ensures var (methods, request) := ParseGreeting(b).value;
            && |methods| <= 255 && b == [5, |methods|] + (methods + request)
  {
    assert b == b[..2] + b[2..];
  }

  /** Conversely, whatever bytes lead to a connection are such an encoding followed by the unread
      payload: the parser accepts nothing else and never eats into the payload. */
  lemma EncodeInvertsHandshake(b: seq<Byte>)
    requires Handshake(b).0.Connect?
    ensures var (Connect(d, port), rest) := Handshake(b);
            var (methods, request) := ParseGreeting(b).value;
            && |methods| <= 255 && 0 in methods && Valid(d) && 0 <= port <= 0xFFFF && |request| >= 3
            && b == Encode(methods, request[2], d, port) + rest
  {
    var (Connect(d, port), rest) := Handshake(b);
    var (methods, request) := ParseGreeting(b).value;
    GreetingShape(b);
    EncodeInvertsParseRequest(request);
    EncodeRegroups(methods, request[2], d, port, rest);
  }

  // ---- the handshake as the server side runs it ----

  /** io.ReadFull into a new buffer of n bytes. */
  method ReadBytes(conn: Conn, n: nat) returns (b: Option<seq<Byte>>)
    modifies conn`pending
    ensures match Take(old(conn.Unread()), n)
            case None => b == None
            case Some((bytes, rest)) => b == Some(bytes) && conn.Unread() == rest
  {
    ghost var all := conn.Unread();
    var buf := new Byte[n];
    var ok := conn.ReadFull(buf);
    if !ok {
      return None;
    }
    assert all[..n] == buf[..] && all[n..] == conn.Unread();
    return Some(buf[..]);
  }

  method ReadDest(conn: Conn, atyp: Byte) returns (d: Option<Dest>)
    requires atyp in {1, 3, 4}
    modifies conn`pending
    ensures match ParseDest(atyp, old(conn.Unread()))
            case None => d == None
            case Some((dest, rest)) => d == Some(dest) && conn.Unread() == rest
  {
    var size: nat := if atyp == 1 then 4 else 16;
    if atyp == 3 {
      var n := ReadBytes(conn, 1);
      if n == None {
        return None;
      }
      size := n.value[0];
    }
    var addr := ReadBytes(conn, size);
    if addr == None {
      return None;
    }
    return Some(if atyp == 1 then IPv4(addr.value) else if atyp == 3 then Domain(addr.value) else IPv6(addr.value));
  }

  method ReadRequest(conn: Conn) returns (v: Verdict)
    modifies conn`pending
    ensures v == ParseRequest(old(conn.Unread())).0
    ensures v.Connect? ==> conn.Unread() == ParseRequest(old(conn.Unread())).1
  {
    var req := ReadBytes(conn, 4);
    if req == None || req.value[0] != 5 {
      return Dropped;
    }
    if req.value[1] != 1 {
      return TurnedDown(7);
    }
    if req.value[3] !in {1, 3, 4} {
      return TurnedDown(1);
    }
    var d := ReadDest(conn, req.value[3]);
    if d == None {
      return Dropped;
    }
    var port := ReadBytes(conn, 2);
    if port == None {
      return Dropped;
    }
    return Connect(d.value, FromBe16(port.value));
  }

  /** The bytes sent back once a method is agreed on; `reaches` says whether a stream to the
      destination opened. */
  function RequestReply(v: Verdict, reaches: bool): seq<Byte> {
    match v
    case Dropped => []
    case NoMethod => []
    case TurnedDown(code) => Reply(code)
    case Connect(_, _) => Reply(if reaches then 0 else 5)
  }

  /** Everything a handshake sends back. */
  function Answer(b: seq<Byte>, reaches: bool): seq<Byte> {
    match ParseGreeting(b)
    case None => []
    case Some((methods, _)) =>
      if 0 !in methods then NO_METHOD else NO_AUTH + RequestReply(Handshake(b).0, reaches)
  }

  /** The methods of a version 5 greeting that has arrived in full, by its bytes. */
  predicate Greets(b: seq<Byte>) {
    |b| >= 2 && b[0] == 5 && |b| - 2 >= b[1]
  }

  function Offer(b: seq<Byte>): (seq<Byte>, seq<Byte>)
    requires Greets(b)
  {
    var n: int := b[1];
    (b[2..2 + n], b[2 + n..])
  }

  /** What a client learns from the answer, whatever it has sent. It is told that it is connected exactly if
      it asked for a connection and the destination was reached, and of an unreachable destination exactly if
      it was not; commands other than CONNECT get code 7, unknown address types code 1, and offers without
      "no authentication" 255; a request that breaks off or has another version gets no reply, and neither
      does such a greeting. */
  lemma AnswerTells(b: seq<Byte>, reaches: bool)
    ensures var a, connects := Answer(b, reaches), Handshake(b).0.Connect?;
            var (methods, request) := if Greets(b) then Offer(b) else ([], []);
            var chosen := 0 in methods;
            var asks := chosen && |request| >= 4 && request[0] == 5;
            && (connects ==> asks && request[1] == 1 && request[3] in {1, 3, 4})
            && (a == [5, 0, 5, 0, 0, 1, 0, 0, 0, 0, 0, 0] <==> connects && reaches)
            && (a == [5, 0, 5, 5, 0, 1, 0, 0, 0, 0, 0, 0] <==> connects && !reaches)
            && (a == [5, 0, 5, 7, 0, 1, 0, 0, 0, 0, 0, 0] <==> asks && request[1] != 1)
            && (a == [5, 0, 5, 1, 0, 1, 0, 0, 0, 0, 0, 0] <==> asks && request[1] == 1 && request[3] !in {1, 3, 4})
            && (a == [5, 0xFF] <==> Greets(b) && !chosen)
            && (a == [] <==> !Greets(b))
            && (a == [5, 0] <==>
                  chosen && !connects && (asks ==> request[1] == 1 && request[3] in {1, 3, 4}))
  {
    if Greets(b) {
      var (methods, request) := Offer(b);
      assert ParseGreeting(b) == Some((methods, request)) by {
        assert b[2..][..b[1]] == methods && b[2..][b[1]..] == request;
      }
      if 0 in methods {
        RepliesDiffer(ParseRequest(request).0, reaches);
      }
    }
  }

  lemma RepliesDiffer(v: Verdict, reaches: bool)
    ensures var a := NO_AUTH + RequestReply(v, reaches);
            && (a == [5, 0] <==> v.Dropped? || v.NoMethod?)
            && forall code: Byte :: a == [5, 0, 5, code, 0, 1, 0, 0, 0, 0, 0, 0]
                 <==> match v
                      case TurnedDown(c) => c == code
                      case Connect(_, _) => code == if reaches then 0 else 5
                      case _ => false
  {
    var a := NO_AUTH + RequestReply(v, reaches);
    forall code: Byte | a == [5, 0, 5, code, 0, 1, 0, 0, 0, 0, 0, 0]
      ensures match v
              case TurnedDown(c) => c == code
              case Connect(_, _) => code == if reaches then 0 else 5
              case _ => false
    {
      assert |a| == 12 && a[3] == code;
    }
  }

  method ReadGreeting(conn: Conn) returns (methods: Option<seq<Byte>>)
    modifies conn`pending
    ensures match ParseGreeting(old(conn.Unread()))
            case None => methods == None
            case Some((offered, rest)) => methods == Some(offered) && conn.Unread() == rest
  {
    var head := ReadBytes(conn, 2);
    if head == None || head.value[0] != 5 {
      return None;
    }
    methods := ReadBytes(conn, head.value[1]);
  }

  method ServeRequest(conn: Conn, reaches: bool) returns (v: Verdict)
    modifies conn
    ensures v == ParseRequest(old(conn.Unread())).0
    ensures v.Connect? ==> conn.Unread() == ParseRequest(old(conn.Unread())).1
    ensures conn.sent == old(conn.sent) + Prefix(RequestReply(v, reaches), old(conn.room))
  {
    v := ReadRequest(conn);
    var reply := RequestReply(v, reaches);
    if reply != [] {
      var _ := Send(conn, reply);
    }
  }

  /** What gets through to a client that takes no more than `room` bytes. */
  function Prefix(data: seq<Byte>, room: nat): seq<Byte> {
    data[..Min(|data|, room)]
  }

  lemma PrefixOfConcat(a: seq<Byte>, b: seq<Byte>, room: nat)
    ensures Prefix(a + b, room) == if room < |a| then a[..room] else a + Prefix(b, room - |a|)
  {
  }

  /** The choice of method, and then the request. */
  method ServeChosen(conn: Conn, reaches: bool) returns (v: Verdict)
    modifies conn
    ensures v == if old(conn.room) < |NO_AUTH| then Dropped else ParseRequest(old(conn.Unread())).0
    ensures conn.sent == old(conn.sent)
                         + Prefix(NO_AUTH + RequestReply(ParseRequest(old(conn.Unread())).0, reaches), old(conn.room))
    ensures v.Connect? ==> conn.Unread() == ParseRequest(old(conn.Unread())).1
  {
    PrefixOfConcat(NO_AUTH, RequestReply(ParseRequest(conn.Unread()).0, reaches), conn.room);
    var ok := Send(conn, NO_AUTH);
    if !ok {
      return Dropped;
    }
    v := ServeRequest(conn, reaches);
  }

  /** One step of the protocol at a time, answering as it goes. However many bytes the client takes, it
      gets that many of the answer, and only one that does not take the choice of method is dropped for
      it; errors of later replies change nothing. */
  method HandleSocks(conn: Conn, reaches: bool) returns (v: Verdict)
    modifies conn
    ensures conn.sent == old(conn.sent) + Prefix(Answer(old(conn.Unread()), reaches), old(conn.room))
    ensures v == if Chosen(old(conn.Unread())) && old(conn.room) < |NO_AUTH| then Dropped
                 else Handshake(old(conn.Unread())).0
    ensures v.Connect? ==> conn.Unread() == Handshake(old(conn.Unread())).1
  {
    var methods := ReadGreeting(conn);
    if methods == None {
      return Dropped;
    }
    if 0 !in methods.value {
      var _ := Send(conn, NO_METHOD);
      return NoMethod;
    }
    v := ServeChosen(conn, reaches);
  }

  /** The client speaks version 5 and offers to go without authentication. */
  predicate Chosen(b: seq<Byte>) {
    ParseGreeting(b).Some? && 0 in ParseGreeting(b).value.0
  }

  method Send(conn: Conn, data: seq<Byte>) returns (ok: bool)
    modifies conn`sent, conn`room
    ensures ok <==> |data| <= old(conn.room)
    ensures conn.sent == old(conn.sent) + Prefix(data, old(conn.room))
    ensures ok ==> conn.sent == old(conn.sent) + data && conn.room == old(conn.room) - |data|
  {
    var n, done := conn.Write(data);
    assert n == |data| ==> data[..n] == data;
    ok := done;
  }
}
