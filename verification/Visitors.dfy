/** The visitor table of a UDP tunnel relay: address -> connID with lazy expiry.
    server/forward.go udpTunnelRelay and client/reverse.go udpRelay keep the same table. */
module Visitors {
  import opened Streams
  import Maps

  /** The source address of a datagram, the map key src.String() spells out. */
  datatype Addr = Addr(ip: int, port: int)

  const UDP_IDLE := 90_000_000_000  // nanoseconds
  const SWEEP_EVERY := 64
  const ID_SPACE := 0x1_0000_0000   // connIDs are uint32 and wrap around

  datatype Entry = Entry(id: int, addr: Addr, lastSeen: int)

  /** `conns` is the rule's shared connection gauge, `packets` counts admitted packets. */
  datatype Table = Table(visitors: map<Addr, Entry>, nextId: int, packets: nat, conns: int)

  /** One datagram: whether the access lists let its source through, its source, and the two
      clock readings taken while it is handled. */
  datatype Arrival = Arrival(allowed: bool, src: Addr, seen: int, sweptAt: int)

  function Empty(conns: int): Table {
    Table(map[], 0, 0, conns)
  }

  function Expired(visitors: map<Addr, Entry>, now: int): set<Addr> {
    set a | a in visitors && now - visitors[a].lastSeen > UDP_IDLE
  }

  function Sweep(t: Table, now: int): Table {
    var gone := Expired(t.visitors, now);
    t.(visitors := t.visitors - gone, conns := t.conns - |gone|)
  }

  /** Refresh the entry of a known source, or give a new source the next id. */
  function Touch(t: Table, src: Addr, seen: int): Table {
    if src in t.visitors then
      t.(visitors := t.visitors[src := t.visitors[src].(lastSeen := seen)])
    else
      var id := (t.nextId + 1) % ID_SPACE;
      t.(visitors := t.visitors[src := Entry(id, src, seen)], nextId := id, conns := t.conns + 1)
  }

  predicate Refuses(t: Table, maxConns: int, x: Arrival) {
    !x.allowed || (x.src !in t.visitors && maxConns > 0 && |t.visitors| >= maxConns)
  }

  /** The table after a datagram, and the id to forward it under. */
  function Receive(t: Table, maxConns: int, x: Arrival): (Table, Option<int>) {
    if Refuses(t, maxConns, x) then (t, None)
    else
      var touched := Touch(t, x.src, x.seen);
      var t' := touched.(packets := t.packets + 1);
      (if t'.packets % SWEEP_EVERY == 0 then Sweep(t', x.sweptAt) else t', Some(touched.visitors[x.src].id))
  }

  class VisitorTable {
    var visitors: map<Addr, Entry>
    var nextId: int
    var packets: nat
    var conns: int

    ghost function View(): Table
      reads this
    {
      Table(visitors, nextId, packets, conns)
    }

    constructor (conns: int)
      ensures View() == Empty(conns)
    {
      visitors, nextId, packets, this.conns := map[], 0, 0, conns;
    }

    /** The body of the receive loop between Lock and Unlock. */
    method OnPacket(maxConns: int, x: Arrival) returns (id: Option<int>)
      modifies this
      ensures (View(), id) == Receive(old(View()), maxConns, x)
    {
      if !x.allowed {
        return None;
      }
      if x.src !in visitors && maxConns > 0 && |visitors| >= maxConns {
        return None;
      }
      if x.src !in visitors {
        nextId := (nextId + 1) % ID_SPACE;
        visitors := visitors[x.src := Entry(nextId, x.src, x.seen)];
        conns := conns + 1;
      } else {
        visitors := visitors[x.src := visitors[x.src].(lastSeen := x.seen)];
      }
      id := Some(visitors[x.src].id);
      packets := packets + 1;
      if packets % SWEEP_EVERY == 0 {
        SweepIdle(x.sweptAt);
      }
    }

    /** Ranging over the map visits the entries in an arbitrary order. */
    method SweepIdle(now: int)
      modifies this`visitors, this`conns
      ensures View() == Sweep(old(View()), now)
    {
      ghost var was, idle := visitors, Expired(visitors, now);
      var todo := visitors.Keys;
      assert idle - todo == {};
      while todo != {}
        invariant todo <= was.Keys
        invariant visitors == was - (idle - todo) && conns == old(conns) - |idle - todo|
        decreases todo
      {
        var a := Maps.AnyOf(todo);
        OneMoreGone(was, idle, todo, a);
        todo := todo - {a};
        DropIfIdle(a, now);
      }
      assert idle - {} == idle;
    }

    method DropIfIdle(a: Addr, now: int)
      requires a in visitors
      modifies this`visitors, this`conns
      ensures if now - old(visitors)[a].lastSeen > UDP_IDLE
              then visitors == old(visitors) - {a} && conns == old(conns) - 1
              else visitors == old(visitors) && conns == old(conns)
    {
      if now - visitors[a].lastSeen > UDP_IDLE {
        visitors := visitors - {a};
        conns := conns - 1;
      }
    }

    /** The address for a reply: the first entry with that id in an arbitrary iteration order. */
    method Lookup(id: int) returns (addr: Option<Addr>)
      ensures match addr
              case Some(a) => exists k :: k in visitors && visitors[k].id == id && visitors[k].addr == a
              case None => forall k :: k in visitors ==> visitors[k].id != id
    {
      var todo := visitors.Keys;
      while todo != {}
        invariant forall k :: k in visitors && k !in todo ==> visitors[k].id != id
        invariant todo <= visitors.Keys
        decreases todo
      {
        var k := Maps.AnyOf(todo);
        if visitors[k].id == id {
          return Some(visitors[k].addr);
        }
        todo := todo - {k};
      }
      return None;
    }
  }

  lemma OneMoreGone(was: map<Addr, Entry>, idle: set<Addr>, todo: set<Addr>, a: Addr)
    requires a in todo && todo <= was.Keys
    ensures a in was - (idle - todo) && (was - (idle - todo))[a] == was[a]
    ensures a in idle ==> was - (idle - (todo - {a})) == was - (idle - todo) - {a}
    ensures a in idle ==> |idle - (todo - {a})| == |idle - todo| + 1
    ensures a !in idle ==> idle - (todo - {a}) == idle - todo
  {
    if a in idle {
      assert idle - (todo - {a}) == idle - todo + {a};
      Maps.RemoveOneMore(was, idle - todo, a);
    }
  }

  // ---- runs of one relay's table ----

  /** A table together with the address that each id was handed to: given[n - 1] got id n. */
  datatype Tracked = Tracked(table: Table, given: seq<Addr>)

  function Step(s: Tracked, maxConns: int, x: Arrival): Tracked {
    var t := Receive(s.table, maxConns, x).0;
    Tracked(t, if Refuses(s.table, maxConns, x) || x.src in s.table.visitors then s.given else s.given + [x.src])
  }

  ghost function After(conns: int, maxConns: int, xs: seq<Arrival>): Tracked {
    if xs == [] then Tracked(Empty(conns), [])
    else Step(After(conns, maxConns, xs[..|xs| - 1]), maxConns, xs[|xs| - 1])
  }

  /** `id` was handed to `a`. */
  predicate Given(given: seq<Addr>, id: int, a: Addr) {
    1 <= id <= |given| && given[id - 1] == a
  }

  /** Every entry is filed under its own address and carries an id handed to that address. */
  ghost predicate IdsInv(s: Tracked) {
    && s.table.nextId == |s.given|
    && forall a :: a in s.table.visitors ==>
         s.table.visitors[a].addr == a && Given(s.given, s.table.visitors[a].id, a)
  }

  ghost predicate SizeInv(t: Table, conns: int, maxConns: int) {
    && (maxConns > 0 ==> |t.visitors| <= maxConns)
    && t.conns == conns + |t.visitors|
  }

  ghost predicate Inv(s: Tracked, conns: int, maxConns: int) {
    IdsInv(s) && SizeInv(s.table, conns, maxConns)
  }

  lemma TouchKeepsIds(s: Tracked, src: Addr, seen: int)
    requires IdsInv(s) && (src !in s.table.visitors ==> |s.given| + 1 < ID_SPACE)
    ensures IdsInv(Tracked(Touch(s.table, src, seen), if src in s.table.visitors then s.given else s.given + [src]))
  {
  }

  lemma TouchKeepsSize(t: Table, conns: int, maxConns: int, src: Addr, seen: int)
    requires SizeInv(t, conns, maxConns)
    requires src !in t.visitors && maxConns > 0 ==> |t.visitors| < maxConns
    ensures SizeInv(Touch(t, src, seen), conns, maxConns)
  {
    Maps.SizeOfUpdate(t.visitors, src, Touch(t, src, seen).visitors[src]);
  }

  lemma SweepKeepsSize(t: Table, conns: int, maxConns: int, now: int)
    requires SizeInv(t, conns, maxConns)
    ensures SizeInv(Sweep(t, now), conns, maxConns)
  {
    Maps.SizeOfRemoval(t.visitors, Expired(t.visitors, now));
  }

  lemma StepKeepsInv(s: Tracked, conns: int, maxConns: int, x: Arrival)
    requires Inv(s, conns, maxConns) && |Step(s, maxConns, x).given| < ID_SPACE
    ensures Inv(Step(s, maxConns, x), conns, maxConns)
  {
    if !Refuses(s.table, maxConns, x) {
      TouchKeepsIds(s, x.src, x.seen);
      TouchKeepsSize(s.table, conns, maxConns, x.src, x.seen);
      SweepKeepsSize(Touch(s.table, x.src, x.seen).(packets := s.table.packets + 1), conns, maxConns, x.sweptAt);
    }
  }

  lemma {:induction false} GivenGrows(conns: int, maxConns: int, xs: seq<Arrival>, i: nat)
    requires i <= |xs|
    ensures After(conns, maxConns, xs[..i]).given <= After(conns, maxConns, xs).given
  {
    if i < |xs| {
      GivenGrows(conns, maxConns, xs[..|xs| - 1], i);
      assert xs[..|xs| - 1][..i] == xs[..i];
    } else {
      assert xs[..i] == xs;
    }
  }

  /** Over every run that hands out fewer than 2^32 ids: the entry filed under an address carries
      that address and an id in 1..nextId that was handed to it, a positive limit is never
      exceeded, and the gauge moved by exactly the number of entries. */
  lemma {:induction false} TableInvariant(conns: int, maxConns: int, xs: seq<Arrival>)
    requires |After(conns, maxConns, xs).given| < ID_SPACE
    ensures Inv(After(conns, maxConns, xs), conns, maxConns)
  {
    if xs != [] {
      var front := xs[..|xs| - 1];
      GivenGrows(conns, maxConns, xs, |front|);
      TableInvariant(conns, maxConns, front);
      StepKeepsInv(After(conns, maxConns, front), conns, maxConns, xs[|xs| - 1]);
    }
  }

  /** Whatever expired in between: two entries that carry the same id at any two moments of a run
      belong to the same address. */
  lemma IdServesOneAddress(conns: int, maxConns: int, xs: seq<Arrival>, i: nat, j: nat, a: Addr, b: Addr)
    requires i <= |xs| && j <= |xs|
    requires |After(conns, maxConns, xs).given| < ID_SPACE
    requires a in After(conns, maxConns, xs[..i]).table.visitors
    requires b in After(conns, maxConns, xs[..j]).table.visitors
    requires After(conns, maxConns, xs[..i]).table.visitors[a].id
        == After(conns, maxConns, xs[..j]).table.visitors[b].id
    ensures a == b
  {
    GivenGrows(conns, maxConns, xs, i);
    GivenGrows(conns, maxConns, xs, j);
    TableInvariant(conns, maxConns, xs[..i]);
    TableInvariant(conns, maxConns, xs[..j]);
  }

  /** Which datagrams are forwarded, and under which id, in every run: those of allowed sources that are known
      or find room under the limit, under the id the source has, or the next one if it has none. Any other
      datagram changes nothing. */
  lemma AdmissionIff(conns: int, maxConns: int, xs: seq<Arrival>, x: Arrival)
    requires |Step(After(conns, maxConns, xs), maxConns, x).given| < ID_SPACE
    ensures var s := After(conns, maxConns, xs);
            var s', (t', id) := Step(s, maxConns, x), Receive(s.table, maxConns, x);
            && s'.table == t'
            && (id.Some? <==>
                  x.allowed && (x.src in s.table.visitors || maxConns <= 0 || |s.table.visitors| < maxConns))
            && (id.None? ==> s' == s)
            && (id.Some? ==>
                  && Given(s'.given, id.value, x.src) && t'.packets == s.table.packets + 1
                  && (if x.src in s.table.visitors
                      then id.value == s.table.visitors[x.src].id && s'.given == s.given
                      else id.value == |s.given| + 1 && s'.given == s.given + [x.src])
                  && (x.src in t'.visitors ==> t'.visitors[x.src] == Entry(id.value, x.src, x.seen)))
  {
    var s := After(conns, maxConns, xs);
    TableInvariant(conns, maxConns, xs);
    if !Refuses(s.table, maxConns, x) {
      TouchKeepsIds(s, x.src, x.seen);
      SweptEntry(Touch(s.table, x.src, x.seen).(packets := s.table.packets + 1), x.sweptAt, x.src);
    }
  }

  lemma SweptEntry(t: Table, now: int, a: Addr)
    ensures a in Sweep(t, now).visitors <==> a in t.visitors && now - t.visitors[a].lastSeen <= UDP_IDLE
    ensures a in Sweep(t, now).visitors ==> Sweep(t, now).visitors[a] == t.visitors[a]
  {
    assert a in Expired(t.visitors, now) <==> a in t.visitors && now - t.visitors[a].lastSeen > UDP_IDLE;
  }

  lemma TouchedEntry(t: Table, src: Addr, seen: int, a: Addr)
    ensures a in Touch(t, src, seen).visitors <==> a == src || a in t.visitors
    ensures a == src ==> Touch(t, src, seen).visitors[a].lastSeen == seen
    ensures a != src && a in t.visitors ==> Touch(t, src, seen).visitors[a] == t.visitors[a]
  {
  }

  /** What becomes of one address. */
  lemma ReceivedEntry(t: Table, maxConns: int, x: Arrival, a: Addr)
    requires !Refuses(t, maxConns, x)
    ensures var t' := Receive(t, maxConns, x).0;
            var seen := if a == x.src then x.seen else if a in t.visitors then t.visitors[a].lastSeen else 0;
            && (a in t'.visitors <==> (a == x.src || a in t.visitors)
                                      && !((t.packets + 1) % SWEEP_EVERY == 0 && x.sweptAt - seen > UDP_IDLE))
            && (a in t'.visitors ==>
                t'.visitors[a].lastSeen == seen && (a != x.src ==> t'.visitors[a] == t.visitors[a]))
  {
    TouchedEntry(t, x.src, x.seen, a);
    SweptEntry(Touch(t, x.src, x.seen).(packets := t.packets + 1), x.sweptAt, a);
  }

  /** Which entries one datagram leaves behind. Between sweeps none goes. A sweep removes exactly
      the entries idle for more than 90 s, so every survivor was seen within 90 s; the entry of the
      packet in hand survives unless its own two clock readings lie more than 90 s apart. */
  lemma SweepIsExact(t: Table, maxConns: int, x: Arrival)
    requires !Refuses(t, maxConns, x)
    ensures var t' := Receive(t, maxConns, x).0;
            && (forall a :: a in t'.visitors && (t.packets + 1) % 64 == 0 ==>
                  x.sweptAt - t'.visitors[a].lastSeen <= 90_000_000_000)
            && (forall a :: a in t.visitors && a != x.src ==>
                  if a in t'.visitors then t'.visitors[a] == t.visitors[a]
                  else (t.packets + 1) % 64 == 0 && x.sweptAt - t.visitors[a].lastSeen > 90_000_000_000)
            && t'.visitors.Keys <= t.visitors.Keys + {x.src}
            && (x.src in t'.visitors <==> !((t.packets + 1) % 64 == 0 && x.sweptAt - x.seen > 90_000_000_000))
            && (x.src in t'.visitors ==> t'.visitors[x.src].lastSeen == x.seen)
  {
    var t' := Receive(t, maxConns, x).0;
    ReceivedEntry(t, maxConns, x, x.src);
    forall a | a in t'.visitors && (t.packets + 1) % 64 == 0
      ensures x.sweptAt - t'.visitors[a].lastSeen <= 90_000_000_000
    {
      ReceivedEntry(t, maxConns, x, a);
    }
    forall a | a in t.visitors && a != x.src
      ensures if a in t'.visitors then t'.visitors[a] == t.visitors[a]
              else (t.packets + 1) % 64 == 0 && x.sweptAt - t.visitors[a].lastSeen > 90_000_000_000
    {
      ReceivedEntry(t, maxConns, x, a);
    }
    forall a | a in t'.visitors ensures a in t.visitors.Keys + {x.src} {
      ReceivedEntry(t, maxConns, x, a);
    }
  }

  /** Two live entries share an id. */
  ghost predicate Collides(visitors: map<Addr, Entry>) {
    exists a, b :: a in visitors && b in visitors && a != b && visitors[a].id == visitors[b].id
  }

  /** Where the 2^32 bound comes from: a new source makes two live entries share an id exactly
      when the wrapped-around next id is still in use. */
  lemma FreshIdCollidesIff(t: Table, src: Addr, seen: int)
    requires !Collides(t.visitors) && src !in t.visitors
    ensures Collides(Touch(t, src, seen).visitors)
       <==> exists a :: a in t.visitors && t.visitors[a].id == (t.nextId + 1) % ID_SPACE
  {
    var vs := Touch(t, src, seen).visitors;
    assert vs[src].id == (t.nextId + 1) % ID_SPACE;
    assert forall a :: a in t.visitors ==> a in vs && vs[a] == t.visitors[a];
  }

  // ---- and a run in which it is ----

  /** Visitor after visitor, each sending one packet, all within 90 seconds. */
  function Crowd(n: nat): (xs: seq<Arrival>)
    ensures |xs| == n
  {
    if n == 0 then [] else Crowd(n - 1) + [Arrival(true, Addr(n, 0), 0, 0)]
  }

  /** All of them are in the table, the n-th with id n, wrapped. */
  ghost predicate Crowded(t: Table, n: nat) {
    && t.nextId == n % ID_SPACE
    && forall a :: (a in t.visitors <==> a.port == 0 && 1 <= a.ip <= n)
                   && (a in t.visitors ==> t.visitors[a] == Entry(a.ip % ID_SPACE, a, 0))
  }

  lemma NextOfCrowd(t: Table, n: nat)
    requires Crowded(t, n)
    ensures Crowded(Receive(t, 0, Arrival(true, Addr(n + 1, 0), 0, 0)).0, n + 1)
  {
    WrapStep(n);
    assert Addr(n + 1, 0) !in t.visitors;
    SweepSparesCrowd(Touch(t, Addr(n + 1, 0), 0).(packets := t.packets + 1), n + 1);
  }

  lemma WrapStep(n: nat)
    ensures (n % ID_SPACE + 1) % ID_SPACE == (n + 1) % ID_SPACE
  {
  }

  lemma SweepSparesCrowd(t: Table, n: nat)
    requires Crowded(t, n)
    ensures Sweep(t, 0) == t
  {
    assert Expired(t.visitors, 0) == {};
    assert t.visitors - {} == t.visitors;
  }

  lemma {:induction false} CrowdIsLive(conns: int, n: nat)
    ensures Crowded(After(conns, 0, Crowd(n)).table, n)
  {
    if n > 0 {
      CrowdIsLive(conns, n - 1);
      assert Crowd(n)[..n - 1] == Crowd(n - 1);
      NextOfCrowd(After(conns, 0, Crowd(n - 1)).table, n - 1);
    }
  }

  lemma SameIds(n: nat)
    requires n > ID_SPACE
    ensures (n - ID_SPACE) % ID_SPACE == n % ID_SPACE
  {
  }

  lemma CrowdIsTooLarge(t: Table, n: nat)
    requires Crowded(t, n) && n > ID_SPACE
    ensures Collides(t.visitors)
  {
    var a, b := Addr(n - ID_SPACE, 0), Addr(n, 0);
    SameIds(n);
    assert a in t.visitors && b in t.visitors && t.visitors[a].id == t.visitors[b].id;
  }

  lemma DistinctIds(i: nat, j: nat)
    requires 1 <= i <= ID_SPACE && 1 <= j <= ID_SPACE && i % ID_SPACE == j % ID_SPACE
    ensures i == j
  {
  }

  lemma CrowdHasRoom(t: Table, n: nat)
    requires Crowded(t, n) && n <= ID_SPACE
    ensures !Collides(t.visitors)
  {
    forall a, b | a in t.visitors && b in t.visitors && t.visitors[a].id == t.visitors[b].id ensures a == b {
      DistinctIds(a.ip, b.ip);
    }
  }

  /** Without a limit, n visitors within 90 seconds: two live entries share an id exactly when there are
      more than 2^32 of them. */
  lemma CrowdCollidesIff(conns: int, n: nat)
    ensures Collides(After(conns, 0, Crowd(n)).table.visitors) <==> n > ID_SPACE
  {
    CrowdIsLive(conns, n);
    if n > ID_SPACE {
      CrowdIsTooLarge(After(conns, 0, Crowd(n)).table, n);
    } else {
      CrowdHasRoom(After(conns, 0, Crowd(n)).table, n);
    }
  }
}
