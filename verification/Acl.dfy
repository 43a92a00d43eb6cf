/** Access lists of IP addresses and prefixes (config/config.go NewACL, Allows). Parsing an entry is
    the business of net/netip; it enters as a parameter. */
module Acl {
  import opened Streams

  /** An IPv4 address as its 32 bits or an IPv6 address as its 128 bits. */
  datatype Ip = Ip(v4: bool, bits: nat)

  datatype Prefix = Prefix(ip: Ip, length: nat)

  datatype Library = Library(parsePrefix: string -> Option<Prefix>, parseAddr: string -> Option<Ip>)

  /** Unlimited is the nil list, Invalid the error, Lists a compiled list. */
  datatype Compiled = Unlimited | Invalid | Lists(prefixes: seq<Prefix>, addrs: seq<Ip>)

  function Pow2(n: nat): nat {
    if n == 0 then 1 else 2 * Pow2(n - 1)
  }

  lemma {:induction false} Pow2IsPositive(n: nat)
    ensures Pow2(n) > 0
  {
    if n > 0 {
      Pow2IsPositive(n - 1);
    }
  }

  /** IPv4-mapped IPv6 addresses count as the IPv4 address they carry. */
  function Unmap(ip: Ip): Ip {
    if !ip.v4 && ip.bits / 0x1_0000_0000 == 0xFFFF then Ip(true, ip.bits % 0x1_0000_0000) else ip
  }

  function HostBits(p: Prefix): nat {
    var width := if p.ip.v4 then 32 else 128;
    if p.length > width then 0 else width - p.length
  }

  predicate Contains(p: Prefix, ip: Ip) {
    Pow2IsPositive(HostBits(p));
    p.ip.v4 == ip.v4 && p.ip.bits / Pow2(HostBits(p)) == ip.bits / Pow2(HostBits(p))
  }

  /** An entry is a prefix if it parses as one, else an address. */
  function NewAcl(lib: Library, entries: seq<string>): Compiled {
    if entries == [] then Unlimited else Compile(lib, entries)
  }

  function Compile(lib: Library, entries: seq<string>): (c: Compiled)
    ensures !c.Unlimited?
  {
    if entries == [] then Lists([], [])
    else
      var front, e := Compile(lib, entries[..|entries| - 1]), entries[|entries| - 1];
      if front.Invalid? then Invalid
      else if lib.parsePrefix(e).Some? then front.(prefixes := front.prefixes + [lib.parsePrefix(e).value])
      else if lib.parseAddr(e).Some? then front.(addrs := front.addrs + [Unmap(lib.parseAddr(e).value)])
      else Invalid
  }

  lemma {:induction false} InvalidStaysInvalid(lib: Library, entries: seq<string>, i: nat)
    requires i <= |entries| && Compile(lib, entries[..i]).Invalid?
    ensures Compile(lib, entries).Invalid?
  {
    if i < |entries| {
      assert entries[..|entries| - 1][..i] == entries[..i];
      InvalidStaysInvalid(lib, entries[..|entries| - 1], i);
    } else {
      assert entries[..i] == entries;
    }
  }

  method BuildAcl(lib: Library, entries: seq<string>) returns (c: Compiled)
    ensures c == NewAcl(lib, entries)
  {
    if |entries| == 0 {
      return Unlimited;
    }
    var prefixes, addrs := [], [];
    for i := 0 to |entries|
      invariant Compile(lib, entries[..i]) == Lists(prefixes, addrs)
    {
      assert entries[..i + 1][..i] == entries[..i];
      var p := lib.parsePrefix(entries[i]);
      if p.Some? {
        prefixes := prefixes + [p.value];
      } else {
        var a := lib.parseAddr(entries[i]);
        if a.None? {
          InvalidStaysInvalid(lib, entries, i + 1);
          return Invalid;
        }
        addrs := addrs + [Unmap(a.value)];
      }
    }
    assert entries[..|entries|] == entries;
    return Lists(prefixes, addrs);
  }

  predicate Allows(c: Compiled, ip: Ip)
    requires !c.Invalid?
  {
    match c
    case Unlimited => true
    case Lists(prefixes, addrs) => (exists p :: p in prefixes && Contains(p, Unmap(ip))) || Unmap(ip) in addrs
  }

  predicate Covers(lib: Library, entry: string, ip: Ip) {
    if lib.parsePrefix(entry).Some? then Contains(lib.parsePrefix(entry).value, Unmap(ip))
    else lib.parseAddr(entry).Some? && Unmap(lib.parseAddr(entry).value) == Unmap(ip)
  }

  predicate Parses(lib: Library, entry: string) {
    lib.parsePrefix(entry).Some? || lib.parseAddr(entry).Some?
  }

  lemma {:induction false} CompileMeaning(lib: Library, entries: seq<string>, ip: Ip)
    ensures Compile(lib, entries).Invalid? <==> exists e :: e in entries && !Parses(lib, e)
    ensures !Compile(lib, entries).Invalid? ==>
              (Allows(Compile(lib, entries), ip) <==> exists e :: e in entries && Covers(lib, e, ip))
  {
    if entries != [] {
      var front, e := entries[..|entries| - 1], entries[|entries| - 1];
      CompileMeaning(lib, front, ip);
      assert entries == front + [e];
      assert forall x :: x in entries <==> x in front || x == e;
      var before, after := Compile(lib, front), Compile(lib, entries);
      assert !Parses(lib, e) && !before.Invalid? ==> after.Invalid?;
      if !after.Invalid? {
        var ip' := Unmap(ip);
        if lib.parsePrefix(e).Some? {
          var p := lib.parsePrefix(e).value;
          assert forall q :: q in after.prefixes <==> q in before.prefixes || q == p;
        } else {
          var a := Unmap(lib.parseAddr(e).value);
          assert forall q :: q in after.addrs <==> q in before.addrs || q == a;
        }
        assert Allows(after, ip) <==> Allows(before, ip) || Covers(lib, e, ip);
      }
    }
  }

  /** The empty list lets everyone through, a list with an unparsable entry is an error, and any other
      list lets an address through exactly when one of its entries covers it. */
  lemma AclMeaning(lib: Library, entries: seq<string>, ip: Ip)
    ensures NewAcl(lib, entries).Invalid? <==> exists e :: e in entries && !Parses(lib, e)
    ensures !NewAcl(lib, entries).Invalid? ==>
              (Allows(NewAcl(lib, entries), ip) <==> entries == [] || exists e :: e in entries && Covers(lib, e, ip))
  {
    CompileMeaning(lib, entries, ip);
  }

  lemma InvalidIff(lib: Library, entries: seq<string>)
    ensures NewAcl(lib, entries).Invalid? <==> exists e :: e in entries && !Parses(lib, e)
  {
    AclMeaning(lib, entries, Ip(true, 0));
  }

  // ---- what an entry covers, bit by bit ----

  predicate Bit(bits: nat, k: nat) {
    Pow2IsPositive(k);
    bits / Pow2(k) % 2 == 1
  }

  lemma Halves(a: nat, m: nat)
    requires m > 0
    ensures a / m == 2 * (a / (2 * m)) + a / m % 2
  {
    var q, r := a / m, a % m;
    assert a == m * q + r;
    SplitInTwo(m, q);
    Quotient(a, 2 * m, q / 2, m * (q % 2) + r);
  }

  lemma SplitInTwo(m: nat, q: nat)
    ensures m * q == 2 * m * (q / 2) + m * (q % 2)
    ensures m * (q % 2) == if q % 2 == 0 then 0 else m
  {
    Distributes(m, 2 * (q / 2), q % 2);
    assert q == 2 * (q / 2) + q % 2;
    assert m * (2 * (q / 2)) == 2 * m * (q / 2);
  }

  lemma Distributes(m: nat, a: nat, b: nat)
    ensures m * (a + b) == m * a + m * b
  {
  }

  lemma Quotient(a: nat, m: nat, q: nat, r: nat)
    requires m > 0 && a == m * q + r && r < m
    ensures a / m == q
  {
    var d := a / m - q;
    assert a == m * (a / m) + a % m;
    assert m * d == r - a % m by {
      assert m * (q + d) == m * q + m * d;
    }
    AtLeastOnce(m, d);
  }

  lemma AtLeastOnce(m: int, d: int)
    requires m > 0
    ensures d >= 1 ==> m * d >= m
    ensures d <= -1 ==> m * d <= 0 - m
  {
  }

  lemma {:induction false} SameHighBitsIff(a: nat, b: nat, h: nat, w: nat)
    requires h <= w && a < Pow2(w) && b < Pow2(w)
    ensures Pow2(h) > 0
    ensures a / Pow2(h) == b / Pow2(h) <==> forall k :: h <= k < w ==> (Bit(a, k) <==> Bit(b, k))
    decreases w - h
  {
    Pow2IsPositive(h);
    if h < w {
      SameHighBitsIff(a, b, h + 1, w);
      Halves(a, Pow2(h));
      Halves(b, Pow2(h));
      assert (Bit(a, h) <==> Bit(b, h)) <==> a / Pow2(h) % 2 == b / Pow2(h) % 2;
    } else {
      Quotient(a, Pow2(h), 0, a);
      Quotient(b, Pow2(h), 0, b);
    }
  }

  /** The bits that make an address, and whether it carries an IPv4 address in IPv6 form. */
  predicate InRange(ip: Ip) {
    if ip.v4 then ip.bits < Pow2(32) else ip.bits < Pow2(128)
  }

  predicate CarriesIPv4(ip: Ip) {
    !ip.v4 && 0xFFFF_0000_0000 <= ip.bits <= 0xFFFF_FFFF_FFFF
  }

  /** A prefix of n bits covers the addresses of its family whose first n bits are its own. */
  lemma PrefixCoversIff(lib: Library, entry: string, ip: Ip)
    requires InRange(ip) && !CarriesIPv4(ip) && lib.parsePrefix(entry).Some?
    requires var p := lib.parsePrefix(entry).value; InRange(p.ip) && p.length <= (if p.ip.v4 then 32 else 128)
    ensures var p := lib.parsePrefix(entry).value;
            var width := if p.ip.v4 then 32 else 128;
            Covers(lib, entry, ip)
            <==> p.ip.v4 == ip.v4
                 && forall k :: width - p.length <= k < width ==> (Bit(p.ip.bits, k) <==> Bit(ip.bits, k))
  {
    var p := lib.parsePrefix(entry).value;
    var width := if p.ip.v4 then 32 else 128;
    if p.ip.v4 == ip.v4 {
      SameHighBitsIff(p.ip.bits, ip.bits, width - p.length, width);
    }
  }

  /** Any other entry covers the one address it is. */
  lemma AddressCoversIff(lib: Library, entry: string, ip: Ip)
    requires !CarriesIPv4(ip) && lib.parsePrefix(entry).None? && lib.parseAddr(entry).Some?
    requires !CarriesIPv4(lib.parseAddr(entry).value)
    ensures Covers(lib, entry, ip) <==> lib.parseAddr(entry).value == ip
  {
  }

  /** An IPv4 address is covered in either form or in neither, and an entry may have either form. */
  lemma EitherFormIsCovered(lib: Library, entry: string, v: nat)
    requires v < 0x1_0000_0000
    ensures Covers(lib, entry, Ip(false, 0xFFFF_0000_0000 + v)) <==> Covers(lib, entry, Ip(true, v))
    ensures lib.parsePrefix(entry).None? && lib.parseAddr(entry) == Some(Ip(false, 0xFFFF_0000_0000 + v)) ==>
              forall ip :: !CarriesIPv4(ip) ==> (Covers(lib, entry, ip) <==> ip == Ip(true, v))
  {
  }

  /** The blacklist verdict of the accept loops: no list, or one that does not compile, blocks nobody. */
  predicate Blocks(c: Compiled, ip: Ip) {
    c.Lists? && Allows(c, ip)
  }

  /** What a blacklist says of an address: one of its entries covers it, and all of them parse. */
  predicate Blacklisted(lib: Library, entries: seq<string>, ip: Ip) {
    (forall e :: e in entries ==> Parses(lib, e)) && exists e :: e in entries && Covers(lib, e, ip)
  }

  lemma BlocksIff(lib: Library, entries: seq<string>)
    ensures forall ip :: Blocks(NewAcl(lib, entries), ip) <==> Blacklisted(lib, entries, ip)
  {
    forall ip ensures Blocks(NewAcl(lib, entries), ip) <==> Blacklisted(lib, entries, ip) {
      AclMeaning(lib, entries, ip);
    }
  }
}
