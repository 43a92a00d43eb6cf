/** Byte streams as the rest of the project sees them: a `Conn` delivers its unread bytes in
    arbitrary chunks, and takes an arbitrary number of written bytes before it breaks. */
module Streams {

  type Byte = b: int | 0 <= b < 0x100

  datatype Option<+T> = None | Some(value: T)

  /** Big-endian integers of 16 and 32 bits, as encoding/binary lays them out. */
  function Be16(n: int): (b: seq<Byte>)
    requires 0 <= n < 0x1_0000
    ensures |b| == 2 && FromBe16(b) == n
  {
    [n / 0x100, n % 0x100]
  }

  function FromBe16(b: seq<Byte>): (n: int)
    requires |b| == 2
    ensures 0 <= n < 0x1_0000 && b == [n / 0x100, n % 0x100]
  {
    var hi: int := b[0];
    hi * 0x100 + b[1]
  }

  function Be32(n: int): (b: seq<Byte>)
    requires 0 <= n < 0x1_0000_0000
    ensures |b| == 4 && FromBe32(b) == n
  {
    var hi, lo := Be16(n / 0x1_0000), Be16(n % 0x1_0000);
    assert (hi + lo)[..2] == hi && (hi + lo)[2..] == lo;
    hi + lo
  }

  function FromBe32(b: seq<Byte>): (n: int)
    requires |b| == 4
    ensures 0 <= n < 0x1_0000_0000
  {
    FromBe16(b[..2]) * 0x1_0000 + FromBe16(b[2..])
  }

  lemma FromBe32IsInverse(b: seq<Byte>)
    requires |b| == 4
    ensures Be32(FromBe32(b)) == b
  {
    var n := FromBe32(b);
    assert n / 0x1_0000 == FromBe16(b[..2]) && n % 0x1_0000 == FromBe16(b[2..]);
    assert b == b[..2] + b[2..];
  }

  /** What a sequence of chunks spells when the chunk boundaries are forgotten. */
  ghost function Flat(chunks: seq<seq<Byte>>): seq<Byte> {
    if chunks == [] then [] else chunks[0] + Flat(chunks[1..])
  }

  function Min(a: int, b: int): (m: int)
    ensures m <= a && m <= b && (m == a || m == b)
  {
    if a < b then a else b
  }

  /** Go's copy into buf[at..]. */
  method CopyInto(buf: array<Byte>, at: nat, data: seq<Byte>)
    requires at + |data| <= buf.Length
    modifies buf
    ensures buf[..] == old(buf[..at]) + data + old(buf[at + |data|..])
  {
    for i := 0 to |data|
      invariant forall k :: 0 <= k < i ==> buf[at + k] == data[k]
      invariant forall k :: 0 <= k < buf.Length && !(at <= k < at + i) ==> buf[k] == old(buf[k])
    {
      buf[at + i] := data[i];
    }
    assert buf[at..at + |data|] == data;
  }

  lemma ReadMore(before: seq<Byte>, read: seq<Byte>, unread: seq<Byte>, rest: seq<Byte>)
    requires unread == read + rest
    ensures before + unread == (before + read) + rest
  {
  }

  class Conn {
    var pending: seq<seq<Byte>>  // what successive Read calls can deliver before the end of the stream
    var sent: seq<Byte>          // what Write has put on the wire
    var room: nat                // how many more bytes the wire takes before it breaks

    constructor (pending: seq<seq<Byte>>, room: nat)
      ensures this.pending == pending && sent == [] && this.room == room
    {
      this.pending, this.sent, this.room := pending, [], room;
    }

    ghost function Unread(): seq<Byte>
      reads this
    {
      Flat(pending)
    }

    /** One Read call into buf[from..to]: at most one chunk, possibly only a part of it. */
    method Read(buf: array<Byte>, from: nat, to: nat) returns (n: nat, eof: bool)
      requires from <= to <= buf.Length
      modifies this`pending, buf
      ensures n <= to - from
      ensures eof <==> old(pending) == []
      ensures eof ==> n == 0
      ensures !eof ==> n == Min(|old(pending)[0]|, to - from)
      ensures old(Unread()) == buf[from..from + n] + Unread()
      ensures from < to && !eof ==> n > 0 || |pending| < |old(pending)|
      ensures |pending| <= |old(pending)|
      ensures forall k :: 0 <= k < buf.Length && !(from <= k < from + n) ==> buf[k] == old(buf[k])
    {
      n, eof := 0, pending == [];
      if !eof {
        var chunk := pending[0];
        n := Min(|chunk|, to - from);
        CopyInto(buf, from, chunk[..n]);
        assert buf[from..from + n] == chunk[..n];
        if n == |chunk| {
          pending := pending[1..];
        } else {
          assert chunk == chunk[..n] + chunk[n..];
          pending := [chunk[n..]] + pending[1..];
        }
      }
    }

    /** io.ReadFull: fill the whole buffer, or fail when the stream ends first. */
    method ReadFull(buf: array<Byte>) returns (ok: bool)
      modifies this`pending, buf
      ensures ok <==> |old(Unread())| >= buf.Length
      ensures ok ==> old(Unread()) == buf[..] + Unread()
      ensures !ok ==> Unread() == []
    {
      var have: nat := 0;
      while have < buf.Length
        invariant have <= buf.Length
        invariant old(Unread()) == buf[..have] + Unread()
        decreases buf.Length - have + |pending|
      {
        ghost var before, unread := buf[..have], Unread();
        var n, eof := Read(buf, have, buf.Length);
        if eof {
          return false;
        }
        ReadMore(before, buf[have..have + n], unread, Unread());
        assert buf[..have + n] == before + buf[have..have + n];
        have := have + n;
      }
      assert buf[..have] == buf[..];
      return true;
    }

    /** One Write call: everything, or the part that still fitted and an error. */
    method Write(data: seq<Byte>) returns (n: nat, ok: bool)
      modifies this`sent, this`room
      ensures n == Min(|data|, old(room)) && ok == (n == |data|)
      ensures sent == old(sent) + data[..n] && room == old(room) - n
    {
      n := Min(|data|, room);
      ok := n == |data|;
      sent, room := sent + data[..n], room - n;
    }
  }
}
