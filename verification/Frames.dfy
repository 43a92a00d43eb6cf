/** The tunnel's frame formats (proto/proto.go).
    JSON frame: [2-byte length][body].  UDP frame: [4-byte connID][2-byte length][payload].
    JSON text itself is opaque: a body is the byte string that json.Marshal returned. */
module Frames {
  import opened Streams

  const MAX_FRAME := 0x1_0000

  datatype Packet = Packet(connId: int, payload: seq<Byte>)

  /** What a Go caller can put in a UDPPacket: the id is a uint32. */
  predicate WellTyped(p: Packet) {
    0 <= p.connId < 0x1_0000_0000
  }

  predicate Sendable(p: Packet) {
    WellTyped(p) && |p.payload| <= 0xFFFF
  }

  predicate AllSendable(ps: seq<Packet>) {
    forall p :: p in ps ==> Sendable(p)
  }

  // ---- UDP frames ----

  function EncodeUdp(p: Packet): seq<Byte>
    requires Sendable(p)
  {
    Be32(p.connId) + Be16(|p.payload|) + p.payload
  }

  /** Byte by byte: the id and the length, most significant byte first, and the payload. */
  lemma UdpLayout(p: Packet)
    requires Sendable(p)
    ensures var b := EncodeUdp(p);
            var b0: int, b1: int, b2: int, b3: int, b4: int, b5: int := b[0], b[1], b[2], b[3], b[4], b[5];
            && b0 * 0x100_0000 + b1 * 0x1_0000 + b2 * 0x100 + b3 == p.connId
            && b4 * 0x100 + b5 == |p.payload| && b[6..] == p.payload
  {
    var b := EncodeUdp(p);
    assert b[..4] == Be32(p.connId) && b[4..6] == Be16(|p.payload|) && b[6..] == p.payload;
    assert b[..4][..2] == [b[0], b[1]] && b[..4][2..] == [b[2], b[3]];
  }

  function EncodeAll(ps: seq<Packet>): seq<Byte>
    requires AllSendable(ps)
  {
    if ps == [] then [] else EncodeUdp(ps[0]) + EncodeAll(ps[1..])
  }

  /** One frame off the front of the unread bytes, or None when they end inside a frame. */
  function ParseUdp(b: seq<Byte>): Option<(Packet, seq<Byte>)> {
    if |b| < 6 then None
    else
      var n := FromBe16(b[4..6]);
      if |b| < 6 + n then None
      else Some((Packet(FromBe32(b[..4]), b[6..6 + n]), b[6 + n..]))
  }

  /** Every frame up to the first incomplete one, and the bytes of that one. */
  function ParseAll(b: seq<Byte>): (seq<Packet>, seq<Byte>) {
    match ParseUdp(b)
    case None => ([], b)
    case Some((p, rest)) =>
      var (ps, tail) := ParseAll(rest);
      ([p] + ps, tail)
  }

  lemma ParseUdpInvertsEncode(p: Packet, rest: seq<Byte>)
    requires Sendable(p)
    ensures ParseUdp(EncodeUdp(p) + rest) == Some((p, rest))
  {
    var b := EncodeUdp(p) + rest;
    assert b[..4] == Be32(p.connId);
    assert b[4..6] == Be16(|p.payload|);
    assert b[6..6 + |p.payload|] == p.payload;
    assert b[6 + |p.payload|..] == rest;
  }

  lemma EncodeInvertsParseUdp(b: seq<Byte>)
    ensures match ParseUdp(b)
            case None => true
            case Some((p, rest)) => Sendable(p) && EncodeUdp(p) + rest == b
  {
    if ParseUdp(b).Some? {
      FromBe32IsInverse(b[..4]);
      var n := FromBe16(b[4..6]);
      assert b == b[..4] + b[4..6] + b[6..6 + n] + b[6 + n..];
    }
  }

  /** A frame that has not arrived completely is not parsed at all. */
  lemma ProperPrefixIsIncomplete(p: Packet, k: nat)
    requires Sendable(p) && k < |EncodeUdp(p)|
    ensures ParseUdp(EncodeUdp(p)[..k]).None?
  {
    if k >= 6 {
      assert EncodeUdp(p)[4..6] == Be16(|p.payload|);
      assert EncodeUdp(p)[..k][4..6] == EncodeUdp(p)[4..6];
    }
  }

  lemma EncodeAllCons(p: Packet, ps: seq<Packet>, tail: seq<Byte>)
    requires Sendable(p) && AllSendable(ps)
    ensures EncodeAll([p] + ps) + tail == EncodeUdp(p) + (EncodeAll(ps) + tail)
  {
    assert ([p] + ps)[1..] == ps;
  }

  lemma ParseAllFirst(p: Packet, rest: seq<Byte>)
    requires Sendable(p)
    ensures ParseAll(EncodeUdp(p) + rest) == ([p] + ParseAll(rest).0, ParseAll(rest).1)
  {
    ParseUdpInvertsEncode(p, rest);
  }

  /** Frames written one after the other parse back to exactly the frames written,
      whatever incomplete tail follows them. */
  lemma {:induction false} ParseAllInvertsEncodeAll(ps: seq<Packet>, tail: seq<Byte>)
    requires AllSendable(ps) && ParseUdp(tail).None?
    ensures ParseAll(EncodeAll(ps) + tail) == (ps, tail)
  {
    if ps == [] {
      assert EncodeAll(ps) + tail == tail;
    } else {
      ParseAllInvertsEncodeAll(ps[1..], tail);
      assert [ps[0]] + ps[1..] == ps;
      EncodeAllCons(ps[0], ps[1..], tail);
      ParseAllFirst(ps[0], EncodeAll(ps[1..]) + tail);
    }
  }

  /** Conversely every byte string is uniquely a run of whole frames and an incomplete tail:
      parsing loses nothing and invents nothing. */
  lemma {:induction false} EncodeAllInvertsParseAll(b: seq<Byte>)
    ensures var (ps, tail) := ParseAll(b);
            AllSendable(ps) && ParseUdp(tail).None? && EncodeAll(ps) + tail == b
    decreases |b|
  {
    EncodeInvertsParseUdp(b);
    match ParseUdp(b)
    case None =>
    case Some((p, rest)) =>
      EncodeAllInvertsParseAll(rest);
      var (ps, tail) := ParseAll(rest);
      EncodeAllCons(p, ps, tail);
  }

  lemma Associate(a: seq<Byte>, b: seq<Byte>, c: seq<Byte>)
    ensures a + b + c == a + (b + c)
  {
  }

  lemma {:induction false} EncodeAllAppend(ps: seq<Packet>, p: Packet)
    requires AllSendable(ps) && Sendable(p)
    ensures AllSendable(ps + [p])
    ensures EncodeAll(ps + [p]) == EncodeAll(ps) + EncodeUdp(p)
  {
    if ps == [] {
      assert EncodeAll([p]) == EncodeUdp(p) + [];
    } else {
      EncodeAllAppend(ps[1..], p);
      assert (ps + [p])[1..] == ps[1..] + [p] && (ps + [p])[0] == ps[0];
      Associate(EncodeUdp(ps[0]), EncodeAll(ps[1..]), EncodeUdp(p));
    }
  }

  /** A wire that holds whole frames behaves as a queue of packets: writing a frame enqueues at the
      back, reading one dequeues the front and leaves the encoding of the remaining queue. */
  lemma WireIsQueue(queue: seq<Packet>, p: Packet)
    requires AllSendable(queue) && Sendable(p)
    ensures AllSendable(queue + [p])
    ensures EncodeAll(queue) + EncodeUdp(p) == EncodeAll(queue + [p])
    ensures var all := queue + [p];
            AllSendable(all[1..]) && ParseUdp(EncodeAll(all)) == Some((all[0], EncodeAll(all[1..])))
  {
    EncodeAllAppend(queue, p);
    var all := queue + [p];
    ParseUdpInvertsEncode(all[0], EncodeAll(all[1..]));
  }

  lemma ParseAllUnfolds(b: seq<Byte>)
    ensures ParseAll(b).0 == match ParseUdp(b)
                             case None => []
                             case Some((p, rest)) => [p] + ParseAll(rest).0
  {
  }

  // ---- JSON frames ----

  /** The bytes WriteJSONFrame puts on the wire: the 16-bit length is a truncating conversion. */
  function EncodeJson(body: seq<Byte>): Option<seq<Byte>> {
    if |body| > MAX_FRAME then None else Some(Be16(|body| % 0x1_0000) + body)
  }

  function ParseJson(b: seq<Byte>): Option<(seq<Byte>, seq<Byte>)> {
    if |b| < 2 then None
    else
      var n := FromBe16(b[..2]);
      if n == 0 || |b| < 2 + n then None else Some((b[2..2 + n], b[2 + n..]))
  }

  /** A body that the writer accepts comes back from the reader exactly when it has 1 to 65535
      bytes. The accepted body of 65536 bytes is the failing one: its length field is zero. */
  lemma JsonRoundTripIff(body: seq<Byte>, rest: seq<Byte>)
    requires EncodeJson(body).Some?
    ensures ParseJson(EncodeJson(body).value + rest) == Some((body, rest)) <==> 1 <= |body| <= 0xFFFF
  {
    var b := EncodeJson(body).value + rest;
    assert b[..2] == Be16(|body| % 0x1_0000);
    if 1 <= |body| <= 0xFFFF {
      assert b[2..2 + |body|] == body;
      assert b[2 + |body|..] == rest;
    }
  }

  function EncodeJsonAll(bodies: seq<seq<Byte>>): seq<Byte>
    requires forall body :: body in bodies ==> |body| <= MAX_FRAME
  {
    if bodies == [] then [] else EncodeJson(bodies[0]).value + EncodeJsonAll(bodies[1..])
  }

  function ParseJsonAll(b: seq<Byte>): (seq<seq<Byte>>, seq<Byte>) {
    match ParseJson(b)
    case None => ([], b)
    case Some((body, rest)) =>
      var (bodies, tail) := ParseJsonAll(rest);
      ([body] + bodies, tail)
  }

  /** A control stream: any sequence of bodies of 1 to 65535 bytes parses back to itself. */
  lemma {:induction false} ParseJsonAllInvertsEncode(bodies: seq<seq<Byte>>, tail: seq<Byte>)
    requires forall body :: body in bodies ==> 1 <= |body| <= 0xFFFF
    requires ParseJson(tail).None?
    ensures ParseJsonAll(EncodeJsonAll(bodies) + tail) == (bodies, tail)
  {
    if bodies == [] {
      assert EncodeJsonAll(bodies) + tail == tail;
    } else {
      var rest := EncodeJsonAll(bodies[1..]) + tail;
      JsonRoundTripIff(bodies[0], rest);
      assert EncodeJsonAll(bodies) + tail == EncodeJson(bodies[0]).value + rest;
      ParseJsonAllInvertsEncode(bodies[1..], tail);
      assert [bodies[0]] + bodies[1..] == bodies;
    }
  }

  /** A UDP data stream is one JSON header and then UDP frames; the header reader leaves the
      frame reader exactly the first byte of the first frame. */
  lemma DataStreamRoundTrip(header: seq<Byte>, ps: seq<Packet>, tail: seq<Byte>)
    requires 1 <= |header| <= 0xFFFF && AllSendable(ps) && ParseUdp(tail).None?
    ensures var wire := EncodeJson(header).value + (EncodeAll(ps) + tail);
            match ParseJson(wire)
            case None => false
            case Some((h, rest)) => h == header && ParseAll(rest) == (ps, tail)
  {
    JsonRoundTripIff(header, EncodeAll(ps) + tail);
    ParseAllInvertsEncodeAll(ps, tail);
  }

  // ---- the readers and writers themselves ----

  /** A frame goes out in one Write call, so a failure can only cut its end off. */
  method WriteWhole(w: Conn, frame: seq<Byte>) returns (ok: bool)
    modifies w`sent, w`room
    ensures ok <==> |frame| <= old(w.room)
    ensures w.sent == old(w.sent) + (if ok then frame else frame[..old(w.room)])
  {
    var n, done := w.Write(frame);
    if done {
      assert frame[..n] == frame;
    }
    ok := done;
  }

  method WriteUdpPacket(w: Conn, p: Packet) returns (ok: bool)
    requires WellTyped(p)
    modifies w`sent, w`room
    ensures |p.payload| > 0xFFFF ==> !ok && w.sent == old(w.sent)
    ensures |p.payload| <= 0xFFFF ==>
              var frame := EncodeUdp(p);
              && (ok <==> |frame| <= old(w.room))
              && w.sent == old(w.sent) + (if ok then frame else frame[..old(w.room)])
  {
    if |p.payload| > 0xFFFF {
      return false;
    }
    var head, length := Be32(p.connId), Be16(|p.payload|);
    var buf := new Byte[6 + |p.payload|](i => 0);
    buf[0], buf[1], buf[2], buf[3] := head[0], head[1], head[2], head[3];
    buf[4], buf[5] := length[0], length[1];
    assert buf[..6] == head + length;
    CopyInto(buf, 6, p.payload);
    assert buf[..] == EncodeUdp(p);
    ok := WriteWhole(w, buf[..]);
  }

  /** The result depends on the bytes that are going to arrive, not on how they are chunked. */
  method ReadUdpPacket(r: Conn) returns (p: Option<Packet>)
    modifies r`pending
    ensures match ParseUdp(old(r.Unread()))
            case None => p == None
            case Some((packet, rest)) => p == Some(packet) && r.Unread() == rest
    ensures p.Some? ==> |r.Unread()| < |old(r.Unread())|
  {
    ghost var b := r.Unread();
    var head := new Byte[6];
    var ok := r.ReadFull(head);
    if !ok {
      return None;
    }
    assert b[..4] == head[..][..4] && b[4..6] == head[..][4..6];
    var payload := new Byte[FromBe16(head[4..6])];
    ok := r.ReadFull(payload);
    if !ok {
      return None;
    }
    assert b == head[..] + payload[..] + r.Unread();
    return Some(Packet(FromBe32(head[..4]), payload[..]));
  }

  /** `all` are the packets `ps` and those of the bytes to come. */
  predicate Reads(all: seq<Packet>, ps: seq<Packet>, b: seq<Byte>) {
    all == ps + ParseAll(b).0
  }

  lemma ReadsOneMore(all: seq<Packet>, ps: seq<Packet>, b: seq<Byte>)
    requires Reads(all, ps, b)
    ensures match ParseUdp(b)
            case None => ps == all
            case Some((p, rest)) => Reads(all, ps + [p], rest)
  {
    ParseAllUnfolds(b);
  }

  /** The receive loop of a data stream: packet after packet until the stream fails. */
  method ReadPackets(r: Conn) returns (ps: seq<Packet>)
    modifies r`pending
    ensures ps == ParseAll(old(r.Unread())).0
  {
    ghost var all := ParseAll(r.Unread()).0;
    ps := [];
    assert Reads(all, ps, r.Unread());
    while true
      invariant Reads(all, ps, r.Unread())
      decreases |r.Unread()|
    {
      ReadsOneMore(all, ps, r.Unread());
      var p := ReadUdpPacket(r);
      if p == None {
        return;
      }
      ps := ps + [p.value];
    }
  }

  method WriteJsonFrame(w: Conn, body: seq<Byte>) returns (ok: bool)
    modifies w`sent, w`room
    ensures match EncodeJson(body)
            case None => !ok && w.sent == old(w.sent)
            case Some(frame) =>
              && (ok <==> |frame| <= old(w.room))
              && w.sent == old(w.sent) + (if ok then frame else frame[..old(w.room)])
  {
    if |body| > MAX_FRAME {
      return false;
    }
    var head := Be16(|body| % 0x1_0000);
    var buf := new Byte[2 + |body|](i => 0);
    buf[0], buf[1] := head[0], head[1];
    assert buf[..2] == head;
    CopyInto(buf, 2, body);
    assert buf[..] == EncodeJson(body).value;
    ok := WriteWhole(w, buf[..]);
  }

  method ReadJsonFrame(r: Conn) returns (body: Option<seq<Byte>>)
    modifies r`pending
    ensures match ParseJson(old(r.Unread()))
            case None => body == None
            case Some((read, rest)) => body == Some(read) && r.Unread() == rest
  {
    ghost var b := r.Unread();
    var head := new Byte[2];
    var ok := r.ReadFull(head);
    if !ok {
      return None;
    }
    assert b[..2] == head[..];
    var n := FromBe16(head[..]);
    if n == 0 {
      return None;
    }
    var buf := new Byte[n];
    ok := r.ReadFull(buf);
    if !ok {
      return None;
    }
    assert b == head[..] + buf[..] + r.Unread();
    return Some(buf[..]);
  }
}
