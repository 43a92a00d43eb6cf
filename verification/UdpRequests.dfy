/** Packets over the UDP tunnel keep their order: what a backend socket is written is a subsequence of the
    packets that the relay let in. Packets may be lost on the way, but none is altered, doubled or overtaken
    by a later one on its way to the same socket. */
module UdpRequests {
  import opened Streams
  import Visitors
  import opened UdpTunnel

  type Addr = Visitors.Addr

  /** Packets that were let in, unaltered, before number `limit`, and in their order. */
  ghost predicate InOrder(asked: seq<(Addr, Payload)>, rs: seq<Request>, limit: nat) {
    && limit <= |asked|
    && (forall i :: 0 <= i < |rs| ==> rs[i].nth < limit && asked[rs[i].nth] == (rs[i].from, rs[i].payload))
    && forall i, j :: 0 <= i < j < |rs| ==> rs[i].nth < rs[j].nth
  }

  lemma Later(asked: seq<(Addr, Payload)>, rs: seq<Request>, limit: nat, asked': seq<(Addr, Payload)>, limit': nat)
    requires InOrder(asked, rs, limit) && asked <= asked' && limit <= limit' <= |asked'|
    ensures InOrder(asked', rs, limit')
  {
  }

  lemma Dropped(asked: seq<(Addr, Payload)>, p: seq<Request>, r: Request, q: seq<Request>, limit: nat)
    requires InOrder(asked, p + ([r] + q), limit)
    ensures InOrder(asked, p + q, limit)
  {
    var all := p + ([r] + q);
    forall i | 0 <= i < |p + q|
      ensures (p + q)[i].nth < limit && asked[(p + q)[i].nth] == ((p + q)[i].from, (p + q)[i].payload)
    {
      assert (p + q)[i] == all[if i < |p| then i else i + 1];
    }
    forall i, j | 0 <= i < j < |p + q| ensures (p + q)[i].nth < (p + q)[j].nth {
      assert (p + q)[i] == all[if i < |p| then i else i + 1] && (p + q)[j] == all[if j < |p| then j else j + 1];
    }
  }

  lemma Appended(asked: seq<(Addr, Payload)>, p: seq<Request>, r: Request, limit: nat)
    requires InOrder(asked, p, limit) && limit == r.nth < |asked| && asked[r.nth] == (r.from, r.payload)
    ensures InOrder(asked, p + [r], limit + 1)
  {
  }

  /** What the dispatcher of a stream has yet to write. */
  function Pending(ch: Channel): seq<Request> {
    (if ch.feeding.Some? then [ch.feeding.value.1] else []) + ch.up
  }

  /** Everything sent so far came before the packet in hand. */
  function Limit(w: World): nat {
    if w.hand.Nothing? || w.asked == [] then |w.asked| else |w.asked| - 1
  }

  predicate HandIsLatest(w: World) {
    !w.hand.Nothing? ==>
      && w.hand.request.nth == |w.asked| - 1
      && w.asked[w.hand.request.nth] == (w.hand.request.from, w.hand.request.payload)
  }

  predicate FeedsOwn(sockets: seq<Socket>, c: nat, ch: Channel) {
    ch.feeding.Some? ==> ch.feeding.value.0 < |sockets| && sockets[ch.feeding.value.0].chan == c
  }

  predicate OwnFile(sockets: seq<Socket>, c: nat, ch: Channel) {
    forall id :: id in ch.backends ==> ch.backends[id] < |sockets| && sockets[ch.backends[id]].chan == c
  }

  ghost predicate ChannelInOrder(asked: seq<(Addr, Payload)>, sockets: seq<Socket>, c: nat, ch: Channel, limit: nat) {
    && FeedsOwn(sockets, c, ch) && OwnFile(sockets, c, ch)
    && InOrder(asked, Pending(ch), limit)
    && forall s :: 0 <= s < |sockets| && sockets[s].chan == c ==> InOrder(asked, sockets[s].heard + Pending(ch), limit)
  }

  ghost predicate Ordered(w: World) {
    && HandIsLatest(w)
    && (forall s :: 0 <= s < |w.sockets| ==> w.sockets[s].chan < |w.channels|)
    && forall c :: 0 <= c < |w.channels| ==> ChannelInOrder(w.asked, w.sockets, c, w.channels[c], Limit(w))
  }

  /** A channel whose pending requests and sockets are as they were, or has new sockets that heard nothing. */
  lemma ChannelStays(w: World, w': World, c: nat)
    requires Ordered(w) && c < |w.channels| && c < |w'.channels|
    requires w.asked <= w'.asked && Limit(w) <= Limit(w')
    requires w'.channels[c].up == w.channels[c].up && w'.channels[c].feeding == w.channels[c].feeding
    requires forall id :: id in w'.channels[c].backends ==>
        id in w.channels[c].backends && w'.channels[c].backends[id] == w.channels[c].backends[id]
    requires |w.sockets| <= |w'.sockets|
    requires forall s :: 0 <= s < |w.sockets| ==> w'.sockets[s].chan == w.sockets[s].chan
    requires forall s :: 0 <= s < |w.sockets| && w.sockets[s].chan == c ==> w'.sockets[s].heard == w.sockets[s].heard
    requires forall s :: |w.sockets| <= s < |w'.sockets| ==> w'.sockets[s].chan != c
    ensures ChannelInOrder(w'.asked, w'.sockets, c, w'.channels[c], Limit(w'))
  {
    var ch := w.channels[c];
    assert ChannelInOrder(w.asked, w.sockets, c, ch, Limit(w));
    Later(w.asked, Pending(ch), Limit(w), w'.asked, Limit(w'));
    forall s | 0 <= s < |w'.sockets| && w'.sockets[s].chan == c
      ensures InOrder(w'.asked, w'.sockets[s].heard + Pending(ch), Limit(w'))
    {
      Later(w.asked, w.sockets[s].heard + Pending(ch), Limit(w), w'.asked, Limit(w'));
    }
  }

  /** A step of the dispatcher of channel c: all other channels stay, and so does the order if c keeps it. */
  lemma OthersStay(w: World, w': World, c: nat)
    requires Ordered(w) && c < |w.channels| && |w'.channels| == |w.channels| && w'.asked == w.asked && w'.hand == w.hand
    requires forall i :: 0 <= i < |w.channels| && i != c ==> w'.channels[i] == w.channels[i]
    requires |w.sockets| <= |w'.sockets|
    requires forall s :: 0 <= s < |w.sockets| ==>
        w'.sockets[s].chan == w.sockets[s].chan
        && (w.sockets[s].chan != c ==> w'.sockets[s].heard == w.sockets[s].heard)
    requires forall s :: |w.sockets| <= s < |w'.sockets| ==> w'.sockets[s].chan == c
    requires ChannelInOrder(w'.asked, w'.sockets, c, w'.channels[c], Limit(w'))
    ensures Ordered(w')
  {
    forall i | 0 <= i < |w.channels| && i != c
      ensures ChannelInOrder(w'.asked, w'.sockets, i, w'.channels[i], Limit(w'))
    {
      ChannelStays(w, w', i);
    }
  }

  lemma ReceiveKeepsOrder(w: World, maxConns: int, step: Step)
    requires Ordered(w) && Enabled(w, step) && (step.Visit? || step.Ensure?)
    ensures Ordered(Next(w, maxConns, step))
  {
    var w' := Next(w, maxConns, step);
    forall c | 0 <= c < |w.channels| ensures ChannelInOrder(w'.asked, w'.sockets, c, w'.channels[c], Limit(w')) {
      ChannelStays(w, w', c);
    }
    if step.Ensure? && |w'.channels| > |w.channels| {
      assert Pending(NEW_CHANNEL) == [];
    }
  }

  lemma SendKeepsOrder(w: World, maxConns: int, written: bool)
    requires Ordered(w) && Enabled(w, Send(written))
    ensures Ordered(Next(w, maxConns, Send(written)))
  {
    var w', c, r := Next(w, maxConns, Send(written)), w.hand.chan, w.hand.request;
    forall i | 0 <= i < |w.channels| && (i != c || !written)
      ensures ChannelInOrder(w'.asked, w'.sockets, i, w'.channels[i], Limit(w'))
    {
      ChannelStays(w, w', i);
    }
    if written {
      var pending := Pending(w.channels[c]);
      assert ChannelInOrder(w.asked, w.sockets, c, w.channels[c], Limit(w));
      assert Pending(w'.channels[c]) == pending + [r];
      Appended(w.asked, pending, r, Limit(w));
      forall s | 0 <= s < |w.sockets| && w.sockets[s].chan == c
        ensures InOrder(w'.asked, w'.sockets[s].heard + Pending(w'.channels[c]), Limit(w'))
      {
        Appended(w.asked, w.sockets[s].heard + pending, r, Limit(w));
        assert w.sockets[s].heard + pending + [r] == w.sockets[s].heard + (pending + [r]);
      }
    }
  }

  /** The first request pending is taken in hand, or is lost because no backend could be dialled. */
  lemma HeadMayGo(asked: seq<(Addr, Payload)>, heard: seq<Request>, up: seq<Request>, rest: seq<Request>, limit: nat)
    requires InOrder(asked, heard + up, limit) && up != [] && (rest == up || rest == up[1..])
    ensures InOrder(asked, heard + rest, limit)
  {
    assert up == [up[0]] + up[1..];
    Dropped(asked, heard, up[0], up[1..], limit);
  }

  lemma DispatchKeepsChannel(w: World, c: nat, sockets: seq<Socket>, ch: Channel)
    requires Ordered(w) && c < |w.channels| && w.channels[c].feeding == None && w.channels[c].up != []
    requires Pending(ch) == w.channels[c].up || Pending(ch) == w.channels[c].up[1..]
    requires FeedsOwn(sockets, c, ch) && OwnFile(sockets, c, ch) && w.sockets <= sockets
    requires forall s :: |w.sockets| <= s < |sockets| ==> sockets[s].heard == []
    ensures ChannelInOrder(w.asked, sockets, c, ch, Limit(w))
  {
    var up, rest := w.channels[c].up, Pending(ch);
    assert ChannelInOrder(w.asked, w.sockets, c, w.channels[c], Limit(w));
    assert Pending(w.channels[c]) == up && [] + up == up && [] + rest == rest;
    HeadMayGo(w.asked, [], up, rest, Limit(w));
    forall s | 0 <= s < |sockets| && sockets[s].chan == c ensures InOrder(w.asked, sockets[s].heard + rest, Limit(w)) {
      HeadMayGo(w.asked, if s < |w.sockets| then w.sockets[s].heard else [], up, rest, Limit(w));
    }
  }

  /** What a dispatcher does with the first request pending: it goes to the socket filed under its id, to a
      new one, or is lost. */
  lemma DispatchTakesTheFirst(c: nat, ch: Channel, sockets: seq<Socket>, dialled: bool)
    requires ch.feeding == None && ch.up != [] && OwnFile(sockets, c, ch)
    ensures var (backends, sockets', at) := SocketFor(c, ch.backends, sockets, ch.up[0], dialled);
            var ch' := ch.(up := ch.up[1..], backends := backends,
                           feeding := if at.Some? then Some((at.value, ch.up[0])) else None);
            && Pending(ch') == (if at.Some? then ch.up else ch.up[1..])
            && FeedsOwn(sockets', c, ch') && OwnFile(sockets', c, ch') && sockets <= sockets'
            && (forall s :: |sockets| <= s < |sockets'| ==> sockets'[s].heard == [] && sockets'[s].chan == c)
  {
    assert ch.up == [ch.up[0]] + ch.up[1..] && [] + ch.up[1..] == ch.up[1..];
  }

  lemma RequestTakenKeepsOrder(w: World, c: nat, ch: Channel, sockets: seq<Socket>)
    requires Ordered(w) && c < |w.channels| && w.channels[c].feeding == None && w.channels[c].up != []
    requires Pending(ch) == w.channels[c].up || Pending(ch) == w.channels[c].up[1..]
    requires FeedsOwn(sockets, c, ch) && OwnFile(sockets, c, ch) && w.sockets <= sockets
    requires forall s :: |w.sockets| <= s < |sockets| ==> sockets[s].heard == [] && sockets[s].chan == c
    ensures Ordered(SetChannel(w, c, ch).(sockets := sockets))
  {
    DispatchKeepsChannel(w, c, sockets, ch);
    OthersStay(w, SetChannel(w, c, ch).(sockets := sockets), c);
  }

  lemma DispatchKeepsOrder(w: World, maxConns: int, c: nat, dialled: bool)
    requires Ordered(w) && Enabled(w, Dispatch(c, dialled))
    ensures Ordered(Next(w, maxConns, Dispatch(c, dialled)))
  {
    var ch := w.channels[c];
    assert ChannelInOrder(w.asked, w.sockets, c, ch, Limit(w));
    var (backends, sockets, at) := SocketFor(c, ch.backends, w.sockets, ch.up[0], dialled);
    DispatchTakesTheFirst(c, ch, w.sockets, dialled);
    RequestTakenKeepsOrder(w, c, ch.(up := ch.up[1..], backends := backends,
                                     feeding := if at.Some? then Some((at.value, ch.up[0])) else None), sockets);
  }

  /** The request in hand goes to the end of what its socket has heard, or is lost. */
  lemma FedInOrder(asked: seq<(Addr, Payload)>, heard: seq<Request>, r: Request, up: seq<Request>, limit: nat)
    requires InOrder(asked, heard + ([r] + up), limit)
    ensures InOrder(asked, heard + [r] + up, limit) && InOrder(asked, heard + up, limit)
  {
    Dropped(asked, heard, r, up, limit);
    assert heard + [r] + up == heard + ([r] + up);
  }

  lemma FeedKeepsChannel(w: World, c: nat, sockets: seq<Socket>, ch: Channel)
    requires Ordered(w) && c < |w.channels| && w.channels[c].feeding.Some? && |sockets| == |w.sockets|
    requires ch.up == w.channels[c].up && ch.feeding == None
    requires forall id :: id in ch.backends ==>
        id in w.channels[c].backends && ch.backends[id] == w.channels[c].backends[id]
    requires forall s :: 0 <= s < |sockets| ==>
        && sockets[s].chan == w.sockets[s].chan
        && (sockets[s].heard == w.sockets[s].heard
            || sockets[s].heard == w.sockets[s].heard + [w.channels[c].feeding.value.1])
    ensures ChannelInOrder(w.asked, sockets, c, ch, Limit(w))
  {
    var r, was := w.channels[c].feeding.value.1, w.channels[c];
    assert ChannelInOrder(w.asked, w.sockets, c, was, Limit(w));
    assert Pending(ch) == ch.up && Pending(was) == [r] + ch.up;
    assert [] + ([r] + ch.up) == Pending(was) && [] + ch.up == ch.up;
    FedInOrder(w.asked, [], r, ch.up, Limit(w));
    forall s | 0 <= s < |sockets| && sockets[s].chan == c
      ensures InOrder(w.asked, sockets[s].heard + ch.up, Limit(w))
    {
      assert InOrder(w.asked, w.sockets[s].heard + ([r] + ch.up), Limit(w));
      FedInOrder(w.asked, w.sockets[s].heard, r, ch.up, Limit(w));
    }
  }

  lemma FeedKeepsOrder(w: World, maxConns: int, c: nat, written: bool)
    requires Ordered(w) && Enabled(w, Feed(c, written))
    ensures Ordered(Next(w, maxConns, Feed(c, written)))
  {
    var w' := Next(w, maxConns, Feed(c, written));
    assert ChannelInOrder(w.asked, w.sockets, c, w.channels[c], Limit(w));
    FeedKeepsChannel(w, c, w'.sockets, w'.channels[c]);
    OthersStay(w, w', c);
  }

  /** A step that adds and sends no request. */
  ghost predicate Calm(w: World, w': World) {
    && w'.asked == w.asked && w'.hand == w.hand
    && |w'.channels| == |w.channels| && |w'.sockets| == |w.sockets|
    && (forall s :: 0 <= s < |w.sockets| ==>
          w'.sockets[s].chan == w.sockets[s].chan && w'.sockets[s].heard == w.sockets[s].heard)
    && forall c :: 0 <= c < |w.channels| ==>
         && w'.channels[c].up == w.channels[c].up && w'.channels[c].feeding == w.channels[c].feeding
         && forall id :: id in w'.channels[c].backends ==>
              id in w.channels[c].backends && w'.channels[c].backends[id] == w.channels[c].backends[id]
  }

  lemma CalmKeepsOrder(w: World, w': World)
    requires Ordered(w) && Calm(w, w')
    ensures Ordered(w')
  {
    forall c | 0 <= c < |w'.channels| ensures ChannelInOrder(w'.asked, w'.sockets, c, w'.channels[c], Limit(w')) {
      ChannelStays(w, w', c);
    }
  }

  lemma SocketStepIsCalm(w: World, maxConns: int, step: Step)
    requires Enabled(w, step) && (step.ReadBackend? || step.WriteBack? || step.SocketEnds?)
    ensures Calm(w, Next(w, maxConns, step))
  {
  }

  lemma ReaderStepIsCalm(w: World, maxConns: int, step: Step)
    requires Enabled(w, step) && (step.Leave? || step.LookUp? || step.Deliver? || step.StreamDies?)
    ensures Calm(w, Next(w, maxConns, step))
  {
  }

  lemma OthersKeepOrder(w: World, maxConns: int, step: Step)
    requires Ordered(w) && Enabled(w, step)
    requires !step.Visit? && !step.Ensure? && !step.Send? && !step.Dispatch? && !step.Feed?
    ensures Ordered(Next(w, maxConns, step))
  {
    if step.ReadBackend? || step.WriteBack? || step.SocketEnds? {
      SocketStepIsCalm(w, maxConns, step);
    } else {
      ReaderStepIsCalm(w, maxConns, step);
    }
    CalmKeepsOrder(w, Next(w, maxConns, step));
  }

  lemma StepKeepsOrder(w: World, maxConns: int, step: Step)
    requires Ordered(w) && Enabled(w, step)
    ensures Ordered(Next(w, maxConns, step))
  {
    match step
    case Visit(_, _) => ReceiveKeepsOrder(w, maxConns, step);
    case Ensure(_) => ReceiveKeepsOrder(w, maxConns, step);
    case Send(written) => SendKeepsOrder(w, maxConns, written);
    case Dispatch(c, dialled) => DispatchKeepsOrder(w, maxConns, c, dialled);
    case Feed(c, written) => FeedKeepsOrder(w, maxConns, c, written);
    case _ => OthersKeepOrder(w, maxConns, step);
  }

  lemma {:induction false} RunKeepsOrder(w: World, maxConns: int, steps: seq<Step>)
    requires Ordered(w) && Run(w, maxConns, steps)
    ensures Ordered(After(w, maxConns, steps))
    decreases |steps|
  {
    if steps != [] {
      StepKeepsOrder(w, maxConns, steps[0]);
      RunKeepsOrder(Next(w, maxConns, steps[0]), maxConns, steps[1..]);
    }
  }

  /** The datagram a step lets in: one from an allowed source that is known or finds room in the table. */
  function LetInBy(t: Visitors.Table, maxConns: int, step: Step): seq<(Addr, Payload)> {
    match step
    case Visit(x, payload) =>
      if x.allowed && (x.src in t.visitors || maxConns <= 0 || |t.visitors| < maxConns) then [(x.src, payload)] else []
    case _ => []
  }

  ghost function LetIn(w: World, maxConns: int, steps: seq<Step>): seq<(Addr, Payload)>
    requires Run(w, maxConns, steps)
    decreases |steps|
  {
    if steps == [] then []
    else LetInBy(w.table, maxConns, steps[0]) + LetIn(Next(w, maxConns, steps[0]), maxConns, steps[1..])
  }

  lemma StepLetsIn(w: World, maxConns: int, step: Step)
    requires Enabled(w, step)
    ensures Next(w, maxConns, step).asked == w.asked + LetInBy(w.table, maxConns, step)
  {
    assert w.asked + [] == w.asked;
  }

  lemma Regroup<T>(a: seq<T>, b: seq<T>, c: seq<T>)
    ensures a + b + c == a + (b + c)
  {
  }

  lemma {:induction false} AskedIsLetIn(w: World, maxConns: int, steps: seq<Step>)
    requires Run(w, maxConns, steps)
    ensures After(w, maxConns, steps).asked == w.asked + LetIn(w, maxConns, steps)
    decreases |steps|
  {
    if steps == [] {
      assert w.asked + [] == w.asked;
    } else {
      var w' := Next(w, maxConns, steps[0]);
      StepLetsIn(w, maxConns, steps[0]);
      AskedIsLetIn(w', maxConns, steps[1..]);
      Regroup(w.asked, LetInBy(w.table, maxConns, steps[0]), LetIn(w', maxConns, steps[1..]));
    }
  }

  /** In every interleaving, whatever dies, is reopened or expires: each request written to a backend socket
      is, unaltered, a datagram that was let in, and of two written to one socket the one written first came
      in first; so none is written twice. Those let in are the ones from allowed sources that are known or
      find room in the table. */
  lemma RequestsKeepTheirOrder(conns: int, maxConns: int, steps: seq<Step>)
    requires Run(Initial(conns), maxConns, steps)
    ensures var w, datagrams := After(Initial(conns), maxConns, steps), LetIn(Initial(conns), maxConns, steps);
            forall s :: 0 <= s < |w.sockets| ==>
              && (forall r :: r in w.sockets[s].heard ==>
                    r.nth < |datagrams| && datagrams[r.nth] == (r.from, r.payload))
              && (forall i, j :: 0 <= i < j < |w.sockets[s].heard| ==>
                    w.sockets[s].heard[i].nth < w.sockets[s].heard[j].nth)
  {
    RunKeepsOrder(Initial(conns), maxConns, steps);
    AskedIsLetIn(Initial(conns), maxConns, steps);
    var w, datagrams := After(Initial(conns), maxConns, steps), LetIn(Initial(conns), maxConns, steps);
    assert [] + datagrams == datagrams;
    forall s | 0 <= s < |w.sockets|
      ensures InOrder(datagrams, w.sockets[s].heard, |datagrams|)
    {
      var c := w.sockets[s].chan;
      assert ChannelInOrder(w.asked, w.sockets, c, w.channels[c], Limit(w));
      InOrderPrefix(w.asked, w.sockets[s].heard, Pending(w.channels[c]), Limit(w));
    }
  }

  lemma InOrderPrefix(asked: seq<(Addr, Payload)>, p: seq<Request>, q: seq<Request>, limit: nat)
    requires InOrder(asked, p + q, limit)
    ensures InOrder(asked, p, |asked|)
  {
    forall i | 0 <= i < |p| ensures p[i].nth < limit && asked[p[i].nth] == (p[i].from, p[i].payload) {
      assert (p + q)[i] == p[i];
    }
    forall i, j | 0 <= i < j < |p| ensures p[i].nth < p[j].nth {
      assert (p + q)[i] == p[i] && (p + q)[j] == p[j];
    }
  }
}
