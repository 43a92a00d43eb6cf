/** Answers over the UDP tunnel keep their order: what a visitor gets from one backend socket is a
    subsequence of what the socket read. Frames may be lost on the way, but none is altered, doubled or
    overtaken by a later one. */
module UdpOrder {
  import opened Streams
  import Visitors
  import opened UdpTunnel

  type Addr = Visitors.Addr

  /** Two replies of one socket, the first read before the second. */
  predicate Before(a: Reply, b: Reply) {
    a.socket == b.socket ==> a.nth < b.nth
  }

  /** How many answers of a socket have left its goroutine. */
  function Framed(s: Socket): nat {
    if s.unframed && s.answers != [] then |s.answers| - 1 else |s.answers|
  }

  /** The reply is, unaltered, an answer its socket has read and framed. */
  predicate Genuine(sockets: seq<Socket>, r: Reply) {
    && r.socket < |sockets| && r.nth < Framed(sockets[r.socket])
    && sockets[r.socket].answers[r.nth] == r.payload
  }

  ghost predicate DeliveredOk(sockets: seq<Socket>, delivered: seq<(Addr, Reply)>) {
    && (forall d :: d in delivered ==> Genuine(sockets, d.1))
    && forall i, j :: 0 <= i < j < |delivered| ==> Before(delivered[i].1, delivered[j].1)
  }

  /** Replies in flight on a stream come from its own sockets. */
  predicate FlightOk(sockets: seq<Socket>, c: nat, r: Reply) {
    Genuine(sockets, r) && sockets[r.socket].chan == c
  }

  ghost predicate DownOk(sockets: seq<Socket>, c: nat, down: seq<Reply>) {
    && (forall r :: r in down ==> FlightOk(sockets, c, r))
    && forall i, j :: 0 <= i < j < |down| ==> Before(down[i], down[j])
  }

  ghost predicate AllBefore(delivered: seq<(Addr, Reply)>, r: Reply) {
    forall d :: d in delivered ==> Before(d.1, r)
  }

  ghost predicate BeforeAll(r: Reply, down: seq<Reply>) {
    forall q :: q in down ==> Before(r, q)
  }

  /** Delivered, on hand, in flight: each before the next. */
  ghost predicate StreamOk(delivered: seq<(Addr, Reply)>, sockets: seq<Socket>, c: nat, down: seq<Reply>,
                           hand: Option<(Addr, Reply)>) {
    && DownOk(sockets, c, down)
    && (forall r :: r in down ==> AllBefore(delivered, r))
    && (hand.Some? ==>
        FlightOk(sockets, c, hand.value.1) && AllBefore(delivered, hand.value.1) && BeforeAll(hand.value.1, down))
  }

  ghost predicate Ordered(w: World) {
    && DeliveredOk(w.sockets, w.delivered)
    && forall c :: 0 <= c < |w.channels| ==>
         StreamOk(w.delivered, w.sockets, c, w.channels[c].down, w.channels[c].delivery)
  }

  ghost predicate SocketGrows(s: Socket, s': Socket) {
    s'.chan == s.chan && s.answers <= s'.answers && Framed(s) <= Framed(s')
  }

  ghost predicate Grows(sockets: seq<Socket>, sockets': seq<Socket>) {
    |sockets| <= |sockets'| && forall s :: 0 <= s < |sockets| ==> SocketGrows(sockets[s], sockets'[s])
  }

  lemma GenuineStays(sockets: seq<Socket>, sockets': seq<Socket>, r: Reply)
    requires Genuine(sockets, r) && Grows(sockets, sockets')
    ensures Genuine(sockets', r) && sockets'[r.socket].chan == sockets[r.socket].chan
  {
    assert SocketGrows(sockets[r.socket], sockets'[r.socket]);
  }

  lemma StreamStaysOk(delivered: seq<(Addr, Reply)>, sockets: seq<Socket>, sockets': seq<Socket>, c: nat,
                      down: seq<Reply>, hand: Option<(Addr, Reply)>)
    requires StreamOk(delivered, sockets, c, down, hand) && Grows(sockets, sockets')
    ensures StreamOk(delivered, sockets', c, down, hand)
  {
    forall r | r in down ensures FlightOk(sockets', c, r) {
      GenuineStays(sockets, sockets', r);
    }
    if hand.Some? {
      GenuineStays(sockets, sockets', hand.value.1);
    }
  }

  lemma DeliveredStaysOk(sockets: seq<Socket>, sockets': seq<Socket>, delivered: seq<(Addr, Reply)>)
    requires DeliveredOk(sockets, delivered) && Grows(sockets, sockets')
    ensures DeliveredOk(sockets', delivered)
  {
    forall d | d in delivered ensures Genuine(sockets', d.1) {
      GenuineStays(sockets, sockets', d.1);
    }
  }

  /** A step that moves no reply. */
  ghost predicate Calm(w: World, w': World) {
    && w'.delivered == w.delivered && Grows(w.sockets, w'.sockets) && |w.channels| <= |w'.channels|
    && (forall c :: 0 <= c < |w.channels| ==>
          w'.channels[c].down == w.channels[c].down && w'.channels[c].delivery == w.channels[c].delivery)
    && (forall c :: |w.channels| <= c < |w'.channels| ==> w'.channels[c].down == [] && w'.channels[c].delivery == None)
  }

  lemma CalmKeepsOrder(w: World, w': World)
    requires Ordered(w) && Calm(w, w')
    ensures Ordered(w')
  {
    DeliveredStaysOk(w.sockets, w'.sockets, w.delivered);
    forall c | 0 <= c < |w.channels|
      ensures StreamOk(w'.delivered, w'.sockets, c, w'.channels[c].down, w'.channels[c].delivery)
    {
      StreamStaysOk(w.delivered, w.sockets, w'.sockets, c, w.channels[c].down, w.channels[c].delivery);
    }
  }

  lemma ReceiveLoopIsCalm(w: World, maxConns: int, step: Step)
    requires Enabled(w, step) && (step.Visit? || step.Ensure? || step.Send?)
    ensures Calm(w, Next(w, maxConns, step))
  {
  }

  lemma DispatcherIsCalm(w: World, maxConns: int, step: Step)
    requires Enabled(w, step) && (step.Dispatch? || step.Feed? || step.Leave?)
    ensures Calm(w, Next(w, maxConns, step))
  {
  }

  lemma MostStepsAreCalm(w: World, maxConns: int, step: Step)
    requires Enabled(w, step) && !step.WriteBack? && !step.LookUp? && !step.Deliver?
    ensures Calm(w, Next(w, maxConns, step))
  {
    if step.Visit? || step.Ensure? || step.Send? {
      ReceiveLoopIsCalm(w, maxConns, step);
    } else if step.Dispatch? || step.Feed? || step.Leave? {
      DispatcherIsCalm(w, maxConns, step);
    }
  }

  lemma WriteBackKeepsOrder(w: World, maxConns: int, s: nat, written: bool)
    requires Ordered(w) && Enabled(w, WriteBack(s, written))
    ensures Ordered(Next(w, maxConns, WriteBack(s, written)))
  {
    var w', c, nth := Next(w, maxConns, WriteBack(s, written)), w.sockets[s].chan, |w.sockets[s].answers| - 1;
    var quiet := SetSocket(w, s, w.sockets[s].(unframed := false));
    assert Calm(w, quiet);
    CalmKeepsOrder(w, quiet);
    if written {
      var r := Reply(w.sockets[s].id, w.sockets[s].answers[nth], s, nth);
      AppendKeepsOrder(w, w'.sockets, c, r);
    }
  }

  /** The reply just framed comes after every other one of its socket. */
  lemma AppendKeepsOrder(w: World, sockets': seq<Socket>, c: nat, r: Reply)
    requires Ordered(w) && c < |w.channels| && Grows(w.sockets, sockets') && FlightOk(sockets', c, r)
    requires r.socket < |w.sockets| && r.nth == Framed(w.sockets[r.socket])
    ensures StreamOk(w.delivered, sockets', c, w.channels[c].down + [r], w.channels[c].delivery)
  {
    var ch := w.channels[c];
    assert StreamOk(w.delivered, w.sockets, c, ch.down, ch.delivery);
    StreamStaysOk(w.delivered, w.sockets, sockets', c, ch.down, ch.delivery);
    forall q | q in ch.down ensures Before(q, r) {
      assert FlightOk(w.sockets, c, q);
    }
  }

  lemma LookUpKeepsOrder(w: World, maxConns: int, c: nat, found: Option<Addr>)
    requires Ordered(w) && Enabled(w, LookUp(c, found))
    ensures Ordered(Next(w, maxConns, LookUp(c, found)))
  {
    var w', down := Next(w, maxConns, LookUp(c, found)), w.channels[c].down;
    assert StreamOk(w.delivered, w.sockets, c, down, None);
    assert forall r :: r in down[1..] ==> r in down;
    forall q | q in down[1..] ensures Before(down[0], q) {
      var j :| 0 <= j < |down[1..]| && down[1..][j] == q;
      assert down[j + 1] == q;
    }
    assert StreamOk(w'.delivered, w'.sockets, c, w'.channels[c].down, w'.channels[c].delivery);
  }

  lemma DeliverKeepsOrder(w: World, maxConns: int, c: nat, written: bool)
    requires Ordered(w) && Enabled(w, Deliver(c, written))
    ensures Ordered(Next(w, maxConns, Deliver(c, written)))
  {
    var w', hand := Next(w, maxConns, Deliver(c, written)), w.channels[c].delivery.value;
    assert StreamOk(w.delivered, w.sockets, c, w.channels[c].down, w.channels[c].delivery);
    forall i | 0 <= i < |w.channels|
      ensures StreamOk(w'.delivered, w'.sockets, i, w'.channels[i].down, w'.channels[i].delivery)
    {
      assert StreamOk(w.delivered, w.sockets, i, w.channels[i].down, w.channels[i].delivery);
      assert forall r :: FlightOk(w.sockets, i, r) && i != c ==> Before(hand.1, r);
    }
  }

  lemma StepKeepsOrder(w: World, maxConns: int, step: Step)
    requires Ordered(w) && Enabled(w, step)
    ensures Ordered(Next(w, maxConns, step))
  {
    match step
    case WriteBack(s, written) => WriteBackKeepsOrder(w, maxConns, s, written);
    case LookUp(c, found) => LookUpKeepsOrder(w, maxConns, c, found);
    case Deliver(c, written) => DeliverKeepsOrder(w, maxConns, c, written);
    case _ =>
      MostStepsAreCalm(w, maxConns, step);
      CalmKeepsOrder(w, Next(w, maxConns, step));
  }

  lemma {:induction false} RunKeepsOrder(w: World, maxConns: int, steps: seq<Step>)
    requires Ordered(w) && Run(w, maxConns, steps)
    ensures Ordered(After(w, maxConns, steps))
    decreases |steps|
  {
    if steps != [] {
      StepKeepsOrder(w, maxConns, steps[0]);
      RunKeepsOrder(Next(w, maxConns, steps[0]), maxConns, steps[1..]);
    }
  }

  /** In every interleaving, whatever dies, is reopened or expires: each delivered reply is, unaltered,
      an answer read from its socket, and of two replies of one socket the one delivered first was read
      first; so no answer is delivered twice. */
  lemma RepliesKeepTheirOrder(conns: int, maxConns: int, steps: seq<Step>)
    requires Run(Initial(conns), maxConns, steps)
    ensures var w := After(Initial(conns), maxConns, steps);
            && (forall d :: d in w.delivered ==>
                  && d.1.socket < |w.sockets| && d.1.nth < |w.sockets[d.1.socket].answers|
                  && w.sockets[d.1.socket].answers[d.1.nth] == d.1.payload)
            && (forall i, j :: 0 <= i < j < |w.delivered| && w.delivered[i].1.socket == w.delivered[j].1.socket ==>
                  w.delivered[i].1.nth < w.delivered[j].1.nth)
  {
    RunKeepsOrder(Initial(conns), maxConns, steps);
    var w := After(Initial(conns), maxConns, steps);
    forall i, j | 0 <= i < j < |w.delivered| && w.delivered[i].1.socket == w.delivered[j].1.socket
      ensures w.delivered[i].1.nth < w.delivered[j].1.nth
    {
      assert Before(w.delivered[i].1, w.delivered[j].1);
    }
  }
}
