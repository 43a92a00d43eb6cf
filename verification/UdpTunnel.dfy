/** The UDP-over-tunnel protocol end to end: the relay at the listening side (server/forward.go
    udpTunnelRelay), the dispatcher at the dialling side (client/client.go handleUDPStream), one
    backend socket with its own goroutine per connID and stream, and streams that die and are
    reopened while goroutines of the old one are still running. Every step below is one atomic
    section of one goroutine. The pair client/reverse.go udpRelay and server/reverse.go
    udpBackendFromStream makes a subset of these steps: it opens one stream, at the start. */
module UdpTunnel {
  import opened Streams
  import opened Visitors
  import Maps

  type Payload = seq<Byte>

  /** A frame towards the backends; `from` remembers the visitor that sent it, and `nth` as which of all the
      packets that were let in. */
  datatype Request = Request(id: int, payload: Payload, from: Addr, nth: nat)

  /** A frame towards the visitors; `socket` remembers where it was read, and `nth` as which answer. */
  datatype Reply = Reply(id: int, payload: Payload, socket: nat, nth: nat)

  /** The packet the receive loop has in hand: not yet bound to a stream, or bound to one. */
  datatype InHand = Nothing | Unbound(request: Request) | Bound(request: Request, chan: nat)

  /** One tunnel stream. `up` and `down` are the frames in flight; `backends` is the dispatcher's
      table; `feeding` is the request it has found a socket for but not yet written; `delivery` is a
      reply the stream's reader has looked up but not yet sent to the visitor. */
  datatype Channel = Channel(up: seq<Request>, down: seq<Reply>, backends: map<int, nat>, dispatching: bool,
                             feeding: Option<(nat, Request)>, reading: bool, delivery: Option<(Addr, Reply)>)

  /** A backend socket: the stream and connID it was made for, whether it is open, whether its
      goroutine still runs, the requests written to it, all answers read from it, and whether the
      last of them has yet to be framed. */
  datatype Socket = Socket(chan: nat, id: int, open: bool, looping: bool, heard: seq<Request>, answers: seq<Payload>,
                           unframed: bool)

  /** `asked` are the packets let in, and `delivered` the replies sent to visitors, each in their order. */
  datatype World = World(table: Table, given: seq<Addr>, hand: InHand, stream: Option<nat>,
                         channels: seq<Channel>, sockets: seq<Socket>, delivered: seq<(Addr, Reply)>,
                         asked: seq<(Addr, Payload)>)

  datatype Step =
    | Visit(x: Arrival, payload: Payload)        // receive loop: the locked section for one datagram
    | Ensure(online: bool)                       // receive loop: take or open the stream
    | Send(written: bool)                        // receive loop: write the frame
    | Dispatch(c: nat, dialled: bool)            // dispatcher: read a frame, find or dial its socket
    | Feed(c: nat, written: bool)                // dispatcher: write the payload to that socket
    | Leave(c: nat)                              // dispatcher: its stream failed, close all sockets
    | ReadBackend(s: nat, reply: Payload)        // socket goroutine: a backend answered
    | WriteBack(s: nat, written: bool)           // socket goroutine: frame the answer
    | SocketEnds(s: nat)                         // socket goroutine: idle or closed, clean up
    | LookUp(c: nat, found: Option<Addr>)        // stream reader: read a frame, search the table
    | Deliver(c: nat, written: bool)             // stream reader: send to the visitor
    | StreamDies(c: nat)                         // stream reader: its stream failed, forget it

  const NEW_CHANNEL := Channel([], [], map[], true, None, true, None)

  function Initial(conns: int): World {
    World(Empty(conns), [], Nothing, None, [], [], [], [])
  }

  predicate IsChannel(w: World, c: nat) { c < |w.channels| }

  predicate IsSocket(w: World, s: nat) { s < |w.sockets| && w.sockets[s].chan < |w.channels| }

  predicate Enabled(w: World, step: Step) {
    match step
    case Visit(x, _) => w.hand.Nothing?
    case Ensure(_) => w.hand.Unbound? && (w.stream.Some? ==> IsChannel(w, w.stream.value))
    case Send(_) => w.hand.Bound? && IsChannel(w, w.hand.chan)
    case Dispatch(c, _) =>
      && IsChannel(w, c) && w.channels[c].dispatching && w.channels[c].feeding.None? && w.channels[c].up != []
    case Feed(c, written) =>
      && IsChannel(w, c) && w.channels[c].feeding.Some? && IsSocket(w, w.channels[c].feeding.value.0)
      && (written ==> w.sockets[w.channels[c].feeding.value.0].open)
    case Leave(c) => IsChannel(w, c) && w.channels[c].dispatching && w.channels[c].feeding.None?
    case ReadBackend(s, _) => IsSocket(w, s) && w.sockets[s].looping && w.sockets[s].open && !w.sockets[s].unframed
    case WriteBack(s, _) => IsSocket(w, s) && w.sockets[s].looping && w.sockets[s].unframed
        && w.sockets[s].answers != []
    case SocketEnds(s) => IsSocket(w, s) && w.sockets[s].looping && !w.sockets[s].unframed
    case LookUp(c, found) =>
      && IsChannel(w, c) && w.channels[c].reading && w.channels[c].delivery.None? && w.channels[c].down != []
      && Finds(w.table, w.channels[c].down[0].id, found)
    case Deliver(c, _) => IsChannel(w, c) && w.channels[c].delivery.Some?
    case StreamDies(c) => IsChannel(w, c) && w.channels[c].reading && w.channels[c].delivery.None?
  }

  /** A possible outcome of searching the table for an id in arbitrary iteration order. */
  predicate Finds(t: Table, id: int, found: Option<Addr>) {
    match found
    case Some(a) => exists k :: k in t.visitors && t.visitors[k].id == id && t.visitors[k].addr == a
    case None => forall k :: k in t.visitors ==> t.visitors[k].id != id
  }

  function SetChannel(w: World, c: nat, ch: Channel): World
    requires IsChannel(w, c)
  {
    w.(channels := w.channels[c := ch])
  }

  function SetSocket(w: World, s: nat, socket: Socket): World
    requires s < |w.sockets|
  {
    w.(sockets := w.sockets[s := socket])
  }

  function Next(w: World, maxConns: int, step: Step): World
    requires Enabled(w, step)
  {
    match step
    case Visit(x, payload) =>
      var (t, id) := Receive(w.table, maxConns, x);
      w.(table := t, given := Visitors.Step(Tracked(w.table, w.given), maxConns, x).given,
         hand := if id.Some? then Unbound(Request(id.value, payload, x.src, |w.asked|)) else Nothing,
         asked := if id.Some? then w.asked + [(x.src, payload)] else w.asked)
    case Ensure(online) => NextEnsure(w, online)
    case Send(written) =>
      var ch := w.channels[w.hand.chan];
      var w' := if written then SetChannel(w, w.hand.chan, ch.(up := ch.up + [w.hand.request])) else w;
      w'.(hand := Nothing)
    case Dispatch(c, dialled) =>
      var ch := w.channels[c];
      var (backends, sockets, at) := SocketFor(c, ch.backends, w.sockets, ch.up[0], dialled);
      SetChannel(w, c, ch.(up := ch.up[1..], backends := backends,
                           feeding := if at.Some? then Some((at.value, ch.up[0])) else None)).(sockets := sockets)
    case Feed(c, written) =>
      var ch := w.channels[c];
      var (s, r) := ch.feeding.value;
      var (backends, sockets) := Fed(ch.backends, w.sockets, s, r, written);
      SetChannel(w, c, ch.(backends := backends, feeding := None)).(sockets := sockets)
    case Leave(c) =>
      var ch := w.channels[c];
      SetChannel(w, c, ch.(dispatching := false)).(sockets := CloseAll(ch.backends.Values, w.sockets))
    case ReadBackend(s, reply) =>
      SetSocket(w, s, w.sockets[s].(answers := w.sockets[s].answers + [reply], unframed := true))
    case WriteBack(s, written) =>
      var socket := w.sockets[s];
      var ch := w.channels[socket.chan];
      var nth := |socket.answers| - 1;
      var w' := if written
                then SetChannel(w, socket.chan, ch.(down := ch.down + [Reply(socket.id, socket.answers[nth], s, nth)]))
                else w;
      SetSocket(w', s, socket.(unframed := false))
    case SocketEnds(s) =>
      var socket := w.sockets[s];
      var ch := w.channels[socket.chan];
      // The goroutine deletes by connID, even when a newer socket has been filed there since.
      SetSocket(SetChannel(w, socket.chan, ch.(backends := ch.backends - {socket.id})), s,
                socket.(open := false, looping := false))
    case LookUp(c, found) =>
      var ch := w.channels[c];
      SetChannel(w, c, ch.(down := ch.down[1..],
                           delivery := if found.Some? then Some((found.value, ch.down[0])) else None))
    case Deliver(c, written) =>
      var ch := w.channels[c];
      var w' := SetChannel(w, c, ch.(delivery := None));
      if written then w'.(delivered := w.delivered + [ch.delivery.value]) else w'
    case StreamDies(c) =>
      SetChannel(w, c, w.channels[c].(reading := false)).(stream := if w.stream == Some(c) then None else w.stream)
  }

  function NextEnsure(w: World, online: bool): World
    requires w.hand.Unbound?
  {
    match w.stream
    case Some(c) => w.(hand := Bound(w.hand.request, c))
    case None =>
      if online then
        w.(stream := Some(|w.channels|), channels := w.channels + [NEW_CHANNEL],
           hand := Bound(w.hand.request, |w.channels|))
      else w.(hand := Nothing)
  }

  // ---- the dispatcher's table ----

  /** Under the dispatcher's lock: the socket filed under the connID, or a newly dialled one. */
  function SocketFor(c: nat, backends: map<int, nat>, sockets: seq<Socket>, r: Request, dialled: bool)
    : (map<int, nat>, seq<Socket>, Option<nat>)
  {
    if r.id in backends then (backends, sockets, Some(backends[r.id]))
    else if dialled then
      (backends[r.id := |sockets|], sockets + [Socket(c, r.id, true, true, [], [], false)], Some(|sockets|))
    else (backends, sockets, None)
  }

  /** Writing a payload to a socket; a socket that fails is forgotten and closed. */
  function Fed(backends: map<int, nat>, sockets: seq<Socket>, s: nat, r: Request, written: bool)
    : (map<int, nat>, seq<Socket>)
    requires s < |sockets|
  {
    if written then (backends, sockets[s := sockets[s].(heard := sockets[s].heard + [r])])
    else (backends - {r.id}, sockets[s := sockets[s].(open := false)])
  }

  function CloseAll(closed: set<nat>, sockets: seq<Socket>): seq<Socket> {
    seq(|sockets|, s requires 0 <= s < |sockets| =>
      if s in closed then sockets[s].(open := false) else sockets[s])
  }

  class Dispatcher {
    const chan: nat
    var backends: map<int, nat>
    var sockets: seq<Socket>

    constructor (chan: nat, sockets: seq<Socket>)
      ensures this.chan == chan && backends == map[] && this.sockets == sockets
    {
      this.chan, backends, this.sockets := chan, map[], sockets;
    }

    /** Between Lock and Unlock. */
    method FindOrDial(r: Request, dialled: bool) returns (at: Option<nat>)
      modifies this
      ensures (backends, sockets, at) == SocketFor(chan, old(backends), old(sockets), r, dialled)
    {
      if r.id in backends {
        return Some(backends[r.id]);
      }
      if !dialled {
        return None;
      }
      at := Some(|sockets|);
      sockets := sockets + [Socket(chan, r.id, true, true, [], [], false)];
      backends := backends[r.id := at.value];
    }

    method WriteTo(s: nat, r: Request, written: bool)
      requires s < |sockets|
      modifies this
      ensures (backends, sockets) == Fed(old(backends), old(sockets), s, r, written)
    {
      if written {
        sockets := sockets[s := sockets[s].(heard := sockets[s].heard + [r])];
      } else {
        backends := backends - {r.id};
        sockets := sockets[s := sockets[s].(open := false)];
      }
    }

    method Close()
      requires forall s :: s in backends.Values ==> s < |sockets|
      modifies this`sockets
      ensures sockets == CloseAll(backends.Values, old(sockets))
    {
      var todo := backends.Values;
      while todo != {}
        invariant todo <= backends.Values
        invariant sockets == CloseAll(backends.Values - todo, old(sockets))
        decreases todo
      {
        var s := Maps.AnyOf(todo);
        todo := todo - {s};
        sockets := sockets[s := sockets[s].(open := false)];
      }
      assert backends.Values - {} == backends.Values;
    }
  }

  ghost predicate Run(w: World, maxConns: int, steps: seq<Step>)
    decreases |steps|
  {
    steps == [] || (Enabled(w, steps[0]) && Run(Next(w, maxConns, steps[0]), maxConns, steps[1..]))
  }

  ghost function After(w: World, maxConns: int, steps: seq<Step>): World
    requires Run(w, maxConns, steps)
    decreases |steps|
  {
    if steps == [] then w else After(Next(w, maxConns, steps[0]), maxConns, steps[1..])
  }

  // ---- the invariant: every id that travels stands for the visitor it was handed to ----

  ghost predicate RequestOk(given: seq<Addr>, r: Request) {
    Given(given, r.id, r.from)
  }

  ghost predicate SocketOk(given: seq<Addr>, channels: nat, socket: Socket) {
    && socket.chan < channels
    && 1 <= socket.id <= |given|
    && forall r :: r in socket.heard ==> r.id == socket.id && r.from == given[socket.id - 1]
  }

  ghost predicate ReplyOk(given: seq<Addr>, sockets: seq<Socket>, r: Reply) {
    r.socket < |sockets| && sockets[r.socket].id == r.id && 1 <= r.id <= |given|
  }

  ghost predicate DeliveryOk(given: seq<Addr>, sockets: seq<Socket>, d: (Addr, Reply)) {
    ReplyOk(given, sockets, d.1) && Given(given, d.1.id, d.0)
  }

  ghost predicate ChannelOk(given: seq<Addr>, sockets: seq<Socket>, c: nat, ch: Channel) {
    && (forall r :: r in ch.up ==> RequestOk(given, r))
    && (forall r :: r in ch.down ==> ReplyOk(given, sockets, r))
    && (forall id :: id in ch.backends ==>
          ch.backends[id] < |sockets| && sockets[ch.backends[id]].id == id && sockets[ch.backends[id]].chan == c)
    && (ch.feeding.Some? ==> FeedingOk(given, sockets, c, ch.feeding.value))
    && (ch.delivery.Some? ==> DeliveryOk(given, sockets, ch.delivery.value))
  }

  /** The dispatcher holds a socket of its own stream, made for the request's id. */
  ghost predicate FeedingOk(given: seq<Addr>, sockets: seq<Socket>, c: nat, f: (nat, Request)) {
    RequestOk(given, f.1) && f.0 < |sockets| && sockets[f.0].id == f.1.id && sockets[f.0].chan == c
  }

  ghost predicate HandOk(w: World) {
    && (!w.hand.Nothing? ==> RequestOk(w.given, w.hand.request))
    && (w.hand.Bound? ==> IsChannel(w, w.hand.chan))
    && (w.stream.Some? ==> IsChannel(w, w.stream.value))
  }

  ghost predicate Inv(w: World) {
    && IdsInv(Tracked(w.table, w.given))
    && HandOk(w)
    && (forall s :: 0 <= s < |w.sockets| ==> SocketOk(w.given, |w.channels|, w.sockets[s]))
    && (forall c :: 0 <= c < |w.channels| ==> ChannelOk(w.given, w.sockets, c, w.channels[c]))
    && (forall d :: d in w.delivered ==> DeliveryOk(w.given, w.sockets, d))
  }

  /** Ids are never handed out anew and sockets never change their stream or id. */
  ghost predicate Extends(given: seq<Addr>, sockets: seq<Socket>, given': seq<Addr>, sockets': seq<Socket>) {
    && given <= given'
    && |sockets| <= |sockets'|
    && forall s :: 0 <= s < |sockets| ==> sockets'[s].id == sockets[s].id && sockets'[s].chan == sockets[s].chan
  }

  lemma ChannelStaysOk(given: seq<Addr>, sockets: seq<Socket>, given': seq<Addr>, sockets': seq<Socket>, c: nat,
                       ch: Channel)
    requires ChannelOk(given, sockets, c, ch) && Extends(given, sockets, given', sockets')
    ensures ChannelOk(given', sockets', c, ch)
  {
    forall r | r in ch.down ensures ReplyOk(given', sockets', r) {
      assert ReplyOk(given, sockets, r);
    }
  }

  /** All channels but c, and everything delivered, are untouched by a step that only extends. */
  lemma RestStaysOk(w: World, w': World, c: nat)
    requires Inv(w) && Extends(w.given, w.sockets, w'.given, w'.sockets)
    requires |w'.channels| == |w.channels|
    requires forall i :: 0 <= i < |w.channels| && i != c ==> w'.channels[i] == w.channels[i]
    requires c < |w.channels| ==> ChannelOk(w'.given, w'.sockets, c, w'.channels[c])
    ensures forall i :: 0 <= i < |w'.channels| ==> ChannelOk(w'.given, w'.sockets, i, w'.channels[i])
    ensures forall d :: d in w.delivered ==> DeliveryOk(w'.given, w'.sockets, d)
  {
    forall i | 0 <= i < |w.channels| && i != c ensures ChannelOk(w'.given, w'.sockets, i, w'.channels[i]) {
      ChannelStaysOk(w.given, w.sockets, w'.given, w'.sockets, i, w.channels[i]);
    }
    forall d | d in w.delivered ensures DeliveryOk(w'.given, w'.sockets, d) {
      assert DeliveryOk(w.given, w.sockets, d);
    }
  }

  lemma VisitKeepsInv(w: World, maxConns: int, x: Arrival, payload: Payload)
    requires Inv(w) && Enabled(w, Visit(x, payload))
    requires |Next(w, maxConns, Visit(x, payload)).given| < ID_SPACE
    ensures Inv(Next(w, maxConns, Visit(x, payload)))
  {
    var w' := Next(w, maxConns, Visit(x, payload));
    if !Refuses(w.table, maxConns, x) {
      TouchKeepsIds(Tracked(w.table, w.given), x.src, x.seen);
    }
    forall s | 0 <= s < |w'.sockets| ensures SocketOk(w'.given, |w'.channels|, w'.sockets[s]) {
      assert SocketOk(w.given, |w.channels|, w.sockets[s]);
    }
    RestStaysOk(w, w', |w.channels|);
  }

  lemma EnsureKeepsInv(w: World, maxConns: int, online: bool)
    requires Inv(w) && Enabled(w, Ensure(online))
    ensures Inv(Next(w, maxConns, Ensure(online)))
  {
  }

  lemma SendKeepsInv(w: World, maxConns: int, written: bool)
    requires Inv(w) && Enabled(w, Send(written))
    ensures Inv(Next(w, maxConns, Send(written)))
  {
    assert ChannelOk(w.given, w.sockets, w.hand.chan, w.channels[w.hand.chan]);
  }

  /** What a dispatcher's table and the sockets must satisfy. */
  ghost predicate TablesOk(w: World, c: nat, backends: map<int, nat>, sockets: seq<Socket>) {
    && Extends(w.given, w.sockets, w.given, sockets)
    && (forall s :: 0 <= s < |sockets| ==> SocketOk(w.given, |w.channels|, sockets[s]))
    && (forall id :: id in backends ==>
          backends[id] < |sockets| && sockets[backends[id]].id == id && sockets[backends[id]].chan == c)
  }

  lemma DialKeepsTables(w: World, c: nat, backends: map<int, nat>, r: Request, dialled: bool)
    requires IsChannel(w, c) && RequestOk(w.given, r) && TablesOk(w, c, backends, w.sockets)
    ensures var (backends', sockets', at) := SocketFor(c, backends, w.sockets, r, dialled);
            TablesOk(w, c, backends', sockets') && (at.Some? ==> FeedingOk(w.given, sockets', c, (at.value, r)))
  {
  }

  lemma FeedKeepsTables(w: World, c: nat, backends: map<int, nat>, f: (nat, Request), written: bool)
    requires IsChannel(w, c) && TablesOk(w, c, backends, w.sockets) && FeedingOk(w.given, w.sockets, c, f)
    ensures var (backends', sockets') := Fed(backends, w.sockets, f.0, f.1, written);
            TablesOk(w, c, backends', sockets')
  {
    assert SocketOk(w.given, |w.channels|, w.sockets[f.0]);
  }

  lemma DispatchKeepsInv(w: World, maxConns: int, c: nat, dialled: bool)
    requires Inv(w) && Enabled(w, Dispatch(c, dialled))
    ensures Inv(Next(w, maxConns, Dispatch(c, dialled)))
  {
    var w' := Next(w, maxConns, Dispatch(c, dialled));
    var ch := w.channels[c];
    assert ChannelOk(w.given, w.sockets, c, ch) && RequestOk(w.given, ch.up[0]);
    DialKeepsTables(w, c, ch.backends, ch.up[0], dialled);
    ChannelStaysOk(w.given, w.sockets, w'.given, w'.sockets, c, ch.(backends := map[]));
    assert forall q :: q in ch.up[1..] ==> q in ch.up;
    RestStaysOk(w, w', c);
  }

  lemma FeedKeepsInv(w: World, maxConns: int, c: nat, written: bool)
    requires Inv(w) && Enabled(w, Feed(c, written))
    ensures Inv(Next(w, maxConns, Feed(c, written)))
  {
    var w' := Next(w, maxConns, Feed(c, written));
    var ch := w.channels[c];
    assert ChannelOk(w.given, w.sockets, c, ch);
    FeedKeepsTables(w, c, ch.backends, ch.feeding.value, written);
    ChannelStaysOk(w.given, w.sockets, w'.given, w'.sockets, c, ch.(backends := map[]));
    RestStaysOk(w, w', c);
  }

  lemma CloseAllExtends(w: World, closed: set<nat>)
    requires forall s :: 0 <= s < |w.sockets| ==> SocketOk(w.given, |w.channels|, w.sockets[s])
    ensures var sockets := CloseAll(closed, w.sockets);
            && Extends(w.given, w.sockets, w.given, sockets)
            && forall s :: 0 <= s < |sockets| ==> SocketOk(w.given, |w.channels|, sockets[s])
  {
    forall s | 0 <= s < |w.sockets| ensures SocketOk(w.given, |w.channels|, CloseAll(closed, w.sockets)[s]) {
      assert SocketOk(w.given, |w.channels|, w.sockets[s]);
    }
  }

  lemma LeaveKeepsInv(w: World, maxConns: int, c: nat)
    requires Inv(w) && Enabled(w, Leave(c))
    ensures Inv(Next(w, maxConns, Leave(c)))
  {
    var w' := Next(w, maxConns, Leave(c));
    CloseAllExtends(w, w.channels[c].backends.Values);
    ChannelStaysOk(w.given, w.sockets, w'.given, w'.sockets, c, w.channels[c]);
    RestStaysOk(w, w', c);
  }

  lemma ReadBackendKeepsInv(w: World, maxConns: int, s: nat, reply: Payload)
    requires Inv(w) && Enabled(w, ReadBackend(s, reply))
    ensures Inv(Next(w, maxConns, ReadBackend(s, reply)))
  {
    RestStaysOk(w, Next(w, maxConns, ReadBackend(s, reply)), |w.channels|);
  }

  lemma WriteBackKeepsInv(w: World, maxConns: int, s: nat, written: bool)
    requires Inv(w) && Enabled(w, WriteBack(s, written))
    ensures Inv(Next(w, maxConns, WriteBack(s, written)))
  {
    var w' := Next(w, maxConns, WriteBack(s, written));
    var c := w.sockets[s].chan;
    assert SocketOk(w.given, |w.channels|, w.sockets[s]);
    ChannelStaysOk(w.given, w.sockets, w'.given, w'.sockets, c, w.channels[c]);
    RestStaysOk(w, w', c);
  }

  lemma SocketEndsKeepsInv(w: World, maxConns: int, s: nat)
    requires Inv(w) && Enabled(w, SocketEnds(s))
    ensures Inv(Next(w, maxConns, SocketEnds(s)))
  {
    var w' := Next(w, maxConns, SocketEnds(s));
    var c := w.sockets[s].chan;
    ChannelStaysOk(w.given, w.sockets, w'.given, w'.sockets, c, w.channels[c]);
    RestStaysOk(w, w', c);
  }

  lemma LookUpKeepsInv(w: World, maxConns: int, c: nat, found: Option<Addr>)
    requires Inv(w) && Enabled(w, LookUp(c, found))
    ensures Inv(Next(w, maxConns, LookUp(c, found)))
  {
    var ch := w.channels[c];
    assert ChannelOk(w.given, w.sockets, c, ch) && ReplyOk(w.given, w.sockets, ch.down[0]);
    assert forall r :: r in ch.down[1..] ==> r in ch.down;
    RestStaysOk(w, Next(w, maxConns, LookUp(c, found)), c);
  }

  lemma DeliverKeepsInv(w: World, maxConns: int, c: nat, written: bool)
    requires Inv(w) && Enabled(w, Deliver(c, written))
    ensures Inv(Next(w, maxConns, Deliver(c, written)))
  {
    assert ChannelOk(w.given, w.sockets, c, w.channels[c]);
    RestStaysOk(w, Next(w, maxConns, Deliver(c, written)), c);
  }

  lemma StreamDiesKeepsInv(w: World, maxConns: int, c: nat)
    requires Inv(w) && Enabled(w, StreamDies(c))
    ensures Inv(Next(w, maxConns, StreamDies(c)))
  {
    assert ChannelOk(w.given, w.sockets, c, w.channels[c]);
    RestStaysOk(w, Next(w, maxConns, StreamDies(c)), c);
  }

  lemma StepKeepsInv(w: World, maxConns: int, step: Step)
    requires Inv(w) && Enabled(w, step)
    requires |Next(w, maxConns, step).given| < ID_SPACE
    ensures Inv(Next(w, maxConns, step))
  {
    match step
    case Visit(x, payload) => VisitKeepsInv(w, maxConns, x, payload);
    case Ensure(online) => EnsureKeepsInv(w, maxConns, online);
    case Send(written) => SendKeepsInv(w, maxConns, written);
    case Dispatch(c, dialled) => DispatchKeepsInv(w, maxConns, c, dialled);
    case Feed(c, written) => FeedKeepsInv(w, maxConns, c, written);
    case Leave(c) => LeaveKeepsInv(w, maxConns, c);
    case ReadBackend(s, reply) => ReadBackendKeepsInv(w, maxConns, s, reply);
    case WriteBack(s, written) => WriteBackKeepsInv(w, maxConns, s, written);
    case SocketEnds(s) => SocketEndsKeepsInv(w, maxConns, s);
    case LookUp(c, found) => LookUpKeepsInv(w, maxConns, c, found);
    case Deliver(c, written) => DeliverKeepsInv(w, maxConns, c, written);
    case StreamDies(c) => StreamDiesKeepsInv(w, maxConns, c);
  }

  lemma {:induction false} RunGrowsGiven(w: World, maxConns: int, steps: seq<Step>)
    requires Run(w, maxConns, steps)
    ensures w.given <= After(w, maxConns, steps).given
    decreases |steps|
  {
    if steps != [] {
      RunGrowsGiven(Next(w, maxConns, steps[0]), maxConns, steps[1..]);
    }
  }

  lemma {:induction false} RunKeepsInv(w: World, maxConns: int, steps: seq<Step>)
    requires Inv(w) && Run(w, maxConns, steps) && |After(w, maxConns, steps).given| < ID_SPACE
    ensures Inv(After(w, maxConns, steps))
    decreases |steps|
  {
    if steps != [] {
      var w' := Next(w, maxConns, steps[0]);
      RunGrowsGiven(w', maxConns, steps[1..]);
      StepKeepsInv(w, maxConns, steps[0]);
      RunKeepsInv(w', maxConns, steps[1..]);
    }
  }

  // ---- the end-to-end claims ----

  /** In every interleaving that hands out fewer than 2^32 ids, whatever is delivered to a visitor
      was read from a socket made for an id of that visitor, and that socket had been fed by no
      other visitor: conversations never mix, in either direction. */
  lemma RepliesReachTheirOwnVisitor(conns: int, maxConns: int, steps: seq<Step>)
    requires Run(Initial(conns), maxConns, steps)
    requires |After(Initial(conns), maxConns, steps).given| < ID_SPACE
    ensures var w := After(Initial(conns), maxConns, steps);
            forall d :: d in w.delivered ==>
              && d.1.socket < |w.sockets|
              && Given(w.given, w.sockets[d.1.socket].id, d.0)
              && forall r :: r in w.sockets[d.1.socket].heard ==> r.from == d.0
  {
    RunKeepsInv(Initial(conns), maxConns, steps);
    var w := After(Initial(conns), maxConns, steps);
    forall d | d in w.delivered
      ensures d.1.socket < |w.sockets| && Given(w.given, w.sockets[d.1.socket].id, d.0)
          && forall r :: r in w.sockets[d.1.socket].heard ==> r.from == d.0
    {
      assert DeliveryOk(w.given, w.sockets, d);
      assert SocketOk(w.given, |w.channels|, w.sockets[d.1.socket]);
    }
  }

  /** Nothing is dropped needlessly: at any moment of such a run the reader's search finds the
      visitor a reply belongs to exactly when that visitor's entry still carries the reply's id. */
  lemma ReplyIsDroppedIffEntryIsGone(conns: int, maxConns: int, steps: seq<Step>, c: nat, found: Option<Addr>)
    requires Run(Initial(conns), maxConns, steps)
    requires |After(Initial(conns), maxConns, steps).given| < ID_SPACE
    requires Enabled(After(Initial(conns), maxConns, steps), LookUp(c, found))
    ensures var w := After(Initial(conns), maxConns, steps);
            var r := w.channels[c].down[0];
            && 1 <= r.id <= |w.given|
            && var visitor := w.given[r.id - 1];
               found == if visitor in w.table.visitors && w.table.visitors[visitor].id == r.id then Some(visitor)
                        else None
  {
    RunKeepsInv(Initial(conns), maxConns, steps);
    SearchFindsIff(After(Initial(conns), maxConns, steps), c, found);
  }

  lemma SearchFindsIff(w: World, c: nat, found: Option<Addr>)
    requires Inv(w) && Enabled(w, LookUp(c, found))
    ensures var r := w.channels[c].down[0];
            && 1 <= r.id <= |w.given|
            && var visitor := w.given[r.id - 1];
               found == if visitor in w.table.visitors && w.table.visitors[visitor].id == r.id then Some(visitor)
                        else None
  {
    assert ChannelOk(w.given, w.sockets, c, w.channels[c]);
    assert ReplyOk(w.given, w.sockets, w.channels[c].down[0]);
  }

  // ---- runs put together ----

  /** One step leads from w to w'. */
  ghost predicate Leads(w: World, maxConns: int, step: Step, w': World) {
    Enabled(w, step) && Next(w, maxConns, step) == w'
  }

  lemma TwoSteps(w: World, maxConns: int, a: Step, w1: World, b: Step, w2: World)
    requires Leads(w, maxConns, a, w1) && Leads(w1, maxConns, b, w2)
    ensures Run(w, maxConns, [a, b]) && After(w, maxConns, [a, b]) == w2
  {
    assert [a, b][1..] == [b] && [b][1..] == [];
    assert Run(w2, maxConns, []) && After(w2, maxConns, []) == w2;
    assert Run(w1, maxConns, [b]) && After(w1, maxConns, [b]) == w2;
  }

  lemma FirstStep(w: World, maxConns: int, steps: seq<Step>) returns (w': World)
    requires Run(w, maxConns, steps) && steps != []
    ensures Leads(w, maxConns, steps[0], w') && Run(w', maxConns, steps[1..])
    ensures After(w, maxConns, steps) == After(w', maxConns, steps[1..])
  {
    w' := Next(w, maxConns, steps[0]);
  }

  lemma Prepend(w: World, maxConns: int, step: Step, w': World, steps: seq<Step>, end: World)
    requires Leads(w, maxConns, step, w') && Run(w', maxConns, steps) && After(w', maxConns, steps) == end
    ensures Run(w, maxConns, [step] + steps) && After(w, maxConns, [step] + steps) == end
  {
    assert ([step] + steps)[1..] == steps;
  }

  lemma FirstOfConcat<T>(a: seq<T>, b: seq<T>)
    requires a != []
    ensures a + b == [a[0]] + (a[1..] + b)
  {
  }

  lemma {:induction false} RunConcat(w: World, maxConns: int, a: seq<Step>, b: seq<Step>)
    requires Run(w, maxConns, a) && Run(After(w, maxConns, a), maxConns, b)
    ensures Run(w, maxConns, a + b)
    ensures After(w, maxConns, a + b) == After(After(w, maxConns, a), maxConns, b)
    decreases |a|
  {
    if a == [] {
      assert a + b == b;
    } else {
      var w' := FirstStep(w, maxConns, a);
      RunConcat(w', maxConns, a[1..], b);
      FirstOfConcat(a, b);
      Prepend(w, maxConns, a[0], w', a[1..] + b, After(w', maxConns, a[1..] + b));
    }
  }

  function FirstTable(conns: int, x: Arrival): Table {
    Table(map[x.src := Entry(1, x.src, x.seen)], 1, 1, conns + 1)
  }

  /** The world with one visitor and one stream, and the packet of the visitor in hand. */
  function Ready(conns: int, x: Arrival, payload: Payload): World {
    World(FirstTable(conns, x), [x.src], Bound(Request(1, payload, x.src, 0), 0), Some(0), [NEW_CHANNEL], [], [],
          [(x.src, payload)])
  }

  /** A backend socket has been dialled for the packet. */
  function Dialled(conns: int, x: Arrival, payload: Payload): World {
    Ready(conns, x, payload).(hand := Nothing, sockets := [Socket(0, 1, true, true, [], [], false)],
      channels := [NEW_CHANNEL.(backends := map[1 := 0], feeding := Some((0, Request(1, payload, x.src, 0))))])
  }

  lemma Singletons<T>(a: T, b: T)
    ensures [a][0 := b] == [b] && [a][1..] == [] && [] + [a] == [a]
  {
  }

  lemma PacketIsAdmitted(conns: int, maxConns: int, x: Arrival, payload: Payload)
    requires x.allowed
    ensures Run(Initial(conns), maxConns, [Visit(x, payload), Ensure(true)])
    ensures After(Initial(conns), maxConns, [Visit(x, payload), Ensure(true)]) == Ready(conns, x, payload)
  {
    var w := Initial(conns).(table := FirstTable(conns, x), given := [x.src], asked := [(x.src, payload)],
                             hand := Unbound(Request(1, payload, x.src, 0)));
    assert Leads(Initial(conns), maxConns, Visit(x, payload), w);
    TwoSteps(Initial(conns), maxConns, Visit(x, payload), w, Ensure(true), Ready(conns, x, payload));
  }

  lemma BackendIsDialled(conns: int, maxConns: int, x: Arrival, payload: Payload)
    ensures Run(Ready(conns, x, payload), maxConns, [Send(true), Dispatch(0, true)])
    ensures After(Ready(conns, x, payload), maxConns, [Send(true), Dispatch(0, true)]) == Dialled(conns, x, payload)
  {
    var w0, w2, r := Ready(conns, x, payload), Dialled(conns, x, payload), Request(1, payload, x.src, 0);
    var w1 := w0.(hand := Nothing, channels := [NEW_CHANNEL.(up := [r])]);
    Singletons(r, r);
    Singletons(NEW_CHANNEL, w1.channels[0]);
    Singletons(w1.channels[0], w2.channels[0]);
    TwoSteps(w0, maxConns, Send(true), w1, Dispatch(0, true), w2);
  }
}
