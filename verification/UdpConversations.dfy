/** Conversations over the UDP tunnel work when nothing fails: whenever no stream is alive, the next packet
    that is let in opens one, reaches a backend and gets its answer; also after a stream has died in between;
    and later packets of a visitor share its stream and socket. */
module UdpConversations {
  import opened Streams
  import Visitors
  import opened UdpTunnel

  // ---- a conversation over a new stream ----

  lemma LastOf<T>(p: seq<T>, a: T, b: T)
    ensures (p + [a])[|p|] == a && (p + [a])[|p| := b] == p + [b] && [a][1..] == [] && [] + [a] == [a]
  {
  }

  lemma FourSteps(w: World, maxConns: int, a: Step, w1: World, b: Step, w2: World, c: Step, w3: World, d: Step,
                  w4: World)
    requires Leads(w, maxConns, a, w1) && Leads(w1, maxConns, b, w2)
    requires Leads(w2, maxConns, c, w3) && Leads(w3, maxConns, d, w4)
    ensures var steps := [a] + ([b] + ([c] + ([d] + [])));
            Run(w, maxConns, steps) && After(w, maxConns, steps) == w4
  {
    assert Run(w4, maxConns, []) && After(w4, maxConns, []) == w4;
    Prepend(w3, maxConns, d, w4, [], w4);
    Prepend(w2, maxConns, c, w3, [d] + [], w4);
    Prepend(w1, maxConns, b, w2, [c] + ([d] + []), w4);
    Prepend(w, maxConns, a, w1, [b] + ([c] + ([d] + [])), w4);
  }

  /** `w` with one stream more, which is the current one, and possibly one socket more. */
  function Stage(w: World, hand: InHand, ch: Channel, added: seq<Socket>): World {
    w.(hand := hand, stream := Some(|w.channels|), channels := w.channels + [ch], sockets := w.sockets + added)
  }

  /** What is left of a conversation over it. */
  function Served(w: World, r: Request, answer: Payload): World {
    var s := |w.sockets|;
    Stage(w, Nothing, NEW_CHANNEL.(backends := map[r.id := s]),
          [Socket(|w.channels|, r.id, true, true, [r], [answer], false)])
      .(delivered := w.delivered + [(r.from, Reply(r.id, answer, s, 0))])
  }

  function SendSteps(c: nat): seq<Step> {
    [Ensure(true)] + ([Send(true)] + ([Dispatch(c, true)] + ([Feed(c, true)] + [])))
  }

  function AnswerSteps(r: Request, answer: Payload, c: nat, s: nat): seq<Step> {
    [ReadBackend(s, answer)] + ([WriteBack(s, true)] + ([LookUp(c, Some(r.from))] + ([Deliver(c, true)] + [])))
  }

  /** The backend has got the request. */
  function Heard(w: World, r: Request): World {
    Stage(w, Nothing, NEW_CHANNEL.(backends := map[r.id := |w.sockets|]),
          [Socket(|w.channels|, r.id, true, true, [r], [], false)])
  }

  lemma RequestIsSent(w: World, maxConns: int, r: Request)
    requires w.hand == Unbound(r) && w.stream == None
    ensures var bound := Stage(w, Bound(r, |w.channels|), NEW_CHANNEL, []);
            && Leads(w, maxConns, Ensure(true), bound)
            && Leads(bound, maxConns, Send(true), Stage(w, Nothing, NEW_CHANNEL.(up := [r]), []))
  {
    assert w.sockets + [] == w.sockets;
    LastOf([], r, r);
    LastOf(w.channels, NEW_CHANNEL, NEW_CHANNEL.(up := [r]));
  }

  /** The socket dialled for it is at hand. */
  function AtHand(w: World, r: Request): World {
    Stage(w, Nothing, NEW_CHANNEL.(backends := map[r.id := |w.sockets|], feeding := Some((|w.sockets|, r))),
          [Socket(|w.channels|, r.id, true, true, [], [], false)])
  }

  lemma RequestIsDispatched(w: World, maxConns: int, r: Request)
    ensures var c, sent := |w.channels|, Stage(w, Nothing, NEW_CHANNEL.(up := [r]), []);
            Leads(sent, maxConns, Dispatch(c, true), AtHand(w, r))
  {
    assert w.sockets + [] == w.sockets;
    LastOf([], r, r);
    LastOf(w.channels, NEW_CHANNEL.(up := [r]), AtHand(w, r).channels[|w.channels|]);
  }

  lemma RequestIsFed(w: World, maxConns: int, r: Request)
    ensures Leads(AtHand(w, r), maxConns, Feed(|w.channels|, true), Heard(w, r))
  {
    var silent := Socket(|w.channels|, r.id, true, true, [], [], false);
    LastOf([], r, r);
    LastOf(w.channels, AtHand(w, r).channels[|w.channels|], Heard(w, r).channels[|w.channels|]);
    LastOf(w.sockets, silent, silent.(heard := [r]));
  }

  lemma RequestArrives(w: World, maxConns: int, r: Request)
    requires w.hand == Unbound(r) && w.stream == None
    ensures Run(w, maxConns, SendSteps(|w.channels|)) && After(w, maxConns, SendSteps(|w.channels|)) == Heard(w, r)
  {
    var c := |w.channels|;
    RequestIsSent(w, maxConns, r);
    RequestIsDispatched(w, maxConns, r);
    RequestIsFed(w, maxConns, r);
    FourSteps(w, maxConns, Ensure(true), Stage(w, Bound(r, c), NEW_CHANNEL, []), Send(true),
              Stage(w, Nothing, NEW_CHANNEL.(up := [r]), []), Dispatch(c, true), AtHand(w, r), Feed(c, true),
              Heard(w, r));
  }

  /** The backend has answered, and the answer is with its socket, under way, or looked up. */
  function Answering(w: World, r: Request, answer: Payload, unframed: bool, down: seq<Reply>,
                     delivery: Option<(Visitors.Addr, Reply)>): World {
    Stage(w, Nothing, NEW_CHANNEL.(backends := map[r.id := |w.sockets|], down := down, delivery := delivery),
          [Socket(|w.channels|, r.id, true, true, [r], [answer], unframed)])
  }

  lemma AnswerIsRead(w: World, maxConns: int, r: Request, answer: Payload)
    ensures Leads(Heard(w, r), maxConns, ReadBackend(|w.sockets|, answer), Answering(w, r, answer, true, [], None))
  {
    LastOf([], answer, answer);
    LastOf(w.sockets, Heard(w, r).sockets[|w.sockets|], Answering(w, r, answer, true, [], None).sockets[|w.sockets|]);
  }

  lemma AnswerIsFramed(w: World, maxConns: int, r: Request, answer: Payload)
    ensures var reply := Reply(r.id, answer, |w.sockets|, 0);
            Leads(Answering(w, r, answer, true, [], None), maxConns, WriteBack(|w.sockets|, true),
                  Answering(w, r, answer, false, [reply], None))
  {
    var c, s, reply := |w.channels|, |w.sockets|, Reply(r.id, answer, |w.sockets|, 0);
    var w1, w2 := Answering(w, r, answer, true, [], None), Answering(w, r, answer, false, [reply], None);
    LastOf([], reply, reply);
    LastOf(w.channels, w1.channels[c], w2.channels[c]);
    LastOf(w.sockets, w1.sockets[s], w2.sockets[s]);
  }

  lemma AnswerIsLookedUp(w: World, maxConns: int, r: Request, answer: Payload)
    requires r.from in w.table.visitors && w.table.visitors[r.from].id == r.id
    requires w.table.visitors[r.from].addr == r.from
    ensures var c, reply := |w.channels|, Reply(r.id, answer, |w.sockets|, 0);
            && Leads(Answering(w, r, answer, false, [reply], None), maxConns, LookUp(c, Some(r.from)),
                     Answering(w, r, answer, false, [], Some((r.from, reply))))
            && Leads(Answering(w, r, answer, false, [], Some((r.from, reply))), maxConns, Deliver(c, true),
                     Served(w, r, answer))
  {
    var c, reply := |w.channels|, Reply(r.id, answer, |w.sockets|, 0);
    var w2 := Answering(w, r, answer, false, [reply], None);
    var w3 := Answering(w, r, answer, false, [], Some((r.from, reply)));
    LastOf([], reply, reply);
    LastOf(w.channels, w2.channels[c], w3.channels[c]);
    LastOf(w.channels, w3.channels[c], Served(w, r, answer).channels[c]);
  }

  lemma AnswerArrives(w: World, maxConns: int, r: Request, answer: Payload)
    requires r.from in w.table.visitors && w.table.visitors[r.from].id == r.id
    requires w.table.visitors[r.from].addr == r.from
    ensures var steps := AnswerSteps(r, answer, |w.channels|, |w.sockets|);
            Run(Heard(w, r), maxConns, steps) && After(Heard(w, r), maxConns, steps) == Served(w, r, answer)
  {
    var c, s, reply := |w.channels|, |w.sockets|, Reply(r.id, answer, |w.sockets|, 0);
    AnswerIsRead(w, maxConns, r, answer);
    AnswerIsFramed(w, maxConns, r, answer);
    AnswerIsLookedUp(w, maxConns, r, answer);
    FourSteps(Heard(w, r), maxConns, ReadBackend(s, answer), Answering(w, r, answer, true, [], None),
              WriteBack(s, true), Answering(w, r, answer, false, [reply], None), LookUp(c, Some(r.from)),
              Answering(w, r, answer, false, [], Some((r.from, reply))), Deliver(c, true), Served(w, r, answer));
  }

  /** A packet, its way to a backend over stream c and socket s, and the backend's answer on its way back. */
  function Conversation(x: Visitors.Arrival, payload: Payload, answer: Payload, c: nat, s: nat): seq<Step> {
    [Visit(x, payload), Ensure(true), Send(true), Dispatch(c, true), Feed(c, true), ReadBackend(s, answer),
     WriteBack(s, true), LookUp(c, Some(x.src)), Deliver(c, true)]
  }

  /** The packet is let in, and its visitor's entry is not swept at once. */
  predicate IsWelcome(t: Visitors.Table, maxConns: int, x: Visitors.Arrival) {
    && x.allowed && (x.src in t.visitors || maxConns <= 0 || |t.visitors| < maxConns)
    && ((t.packets + 1) % 64 != 0 || x.sweptAt - x.seen <= 90_000_000_000)
  }

  lemma PacketIsLetIn(w: World, maxConns: int, x: Visitors.Arrival, payload: Payload) returns (r: Request)
    requires w.hand == Nothing && IsWelcome(w.table, maxConns, x)
    requires Visitors.IdsInv(Visitors.Tracked(w.table, w.given))
    ensures Enabled(w, Visit(x, payload)) && r.from == x.src && r.payload == payload && r.nth == |w.asked|
    ensures x.src in w.table.visitors ==> r.id == w.table.visitors[x.src].id
    ensures var w' := Next(w, maxConns, Visit(x, payload));
            && w'.hand == Unbound(r) && x.src in w'.table.visitors && w'.table.visitors[x.src].id == r.id
            && w'.table.visitors[x.src].addr == x.src && w'.asked == w.asked + [(x.src, payload)]
            && w'.stream == w.stream && w'.channels == w.channels && w'.sockets == w.sockets
            && w'.delivered == w.delivered && w'.table.packets == w.table.packets + 1
  {
    r := Next(w, maxConns, Visit(x, payload)).hand.request;
    Visitors.ReceivedEntry(w.table, maxConns, x, x.src);
  }

  lemma ConversationIs(x: Visitors.Arrival, payload: Payload, answer: Payload, r: Request, c: nat, s: nat)
    requires r.from == x.src
    ensures Conversation(x, payload, answer, c, s)
         == [Visit(x, payload)] + (SendSteps(c) + AnswerSteps(r, answer, c, s))
  {
  }

  lemma ConversationRuns(w: World, maxConns: int, x: Visitors.Arrival, payload: Payload, answer: Payload)
    returns (r: Request)
    requires w.hand == Nothing && w.stream == None && IsWelcome(w.table, maxConns, x)
    requires Visitors.IdsInv(Visitors.Tracked(w.table, w.given))
    ensures r.from == x.src && r.payload == payload && r.nth == |w.asked|
    ensures x.src in w.table.visitors ==> r.id == w.table.visitors[x.src].id
    ensures Next(w, maxConns, Visit(x, payload)).hand == Unbound(r)
    ensures var steps := Conversation(x, payload, answer, |w.channels|, |w.sockets|);
            Run(w, maxConns, steps)
            && After(w, maxConns, steps) == Served(Next(w, maxConns, Visit(x, payload)), r, answer)
  {
    r := PacketIsLetIn(w, maxConns, x, payload);
    var w1 := Next(w, maxConns, Visit(x, payload));
    RequestArrives(w1, maxConns, r);
    AnswerArrives(w1, maxConns, r, answer);
    var there, back := SendSteps(|w.channels|), AnswerSteps(r, answer, |w.channels|, |w.sockets|);
    RunConcat(w1, maxConns, there, back);
    Prepend(w, maxConns, Visit(x, payload), w1, there + back, Served(w1, r, answer));
    ConversationIs(x, payload, answer, r, |w.channels|, |w.sockets|);
  }

  /** However the relay has come to be without a stream, by a death or by never having had one: the next
      packet that is let in opens one and reaches a backend, unaltered, and the backend's answer reaches the
      packet's visitor. */
  lemma NewStreamServes(conns: int, maxConns: int, before: seq<Step>, x: Visitors.Arrival, payload: Payload,
                        answer: Payload) returns (r: Request)
    requires Run(Initial(conns), maxConns, before)
    requires |After(Initial(conns), maxConns, before).given| < Visitors.ID_SPACE
    requires var w := After(Initial(conns), maxConns, before);
             w.hand == Nothing && w.stream == None && IsWelcome(w.table, maxConns, x)
    ensures r.from == x.src && r.payload == payload
    ensures var w := After(Initial(conns), maxConns, before);
            var steps, s := before + Conversation(x, payload, answer, |w.channels|, |w.sockets|), |w.sockets|;
            && Run(Initial(conns), maxConns, steps)
            && var w' := After(Initial(conns), maxConns, steps);
               && w'.delivered == w.delivered + [(x.src, Reply(r.id, answer, s, 0))]
               && w'.sockets == w.sockets + [Socket(|w.channels|, r.id, true, true, [r], [answer], false)]
  {
    var w := After(Initial(conns), maxConns, before);
    RunKeepsInv(Initial(conns), maxConns, before);
    r := ConversationRuns(w, maxConns, x, payload, answer);
    RunConcat(Initial(conns), maxConns, before, Conversation(x, payload, answer, |w.channels|, |w.sockets|));
  }

  /** A visitor's first packet reaches a backend, and that backend's answer reaches the visitor. */
  lemma ConversationCompletes(conns: int, maxConns: int, x: Visitors.Arrival, payload: Payload, answer: Payload)
    requires x.allowed
    ensures var steps := Conversation(x, payload, answer, 0, 0);
            && Run(Initial(conns), maxConns, steps)
            && After(Initial(conns), maxConns, steps).delivered == [(x.src, Reply(1, answer, 0, 0))]
            && After(Initial(conns), maxConns, steps).sockets
               == [Socket(0, 1, true, true, [Request(1, payload, x.src, 0)], [answer], false)]
  {
    var r := ConversationRuns(Initial(conns), maxConns, x, payload, answer);
    assert Next(Initial(conns), maxConns, Visit(x, payload)).hand == Unbound(Request(1, payload, x.src, 0));
  }

  /** The relay after that conversation, its stream having died. */
  lemma StreamDiesAfterwards(conns: int, maxConns: int, x: Visitors.Arrival, payload: Payload, answer: Payload)
    returns (w: World)
    requires x.allowed
    ensures var steps := Conversation(x, payload, answer, 0, 0) + [StreamDies(0)];
            Run(Initial(conns), maxConns, steps) && After(Initial(conns), maxConns, steps) == w
    ensures w.hand == Nothing && w.stream == None && |w.channels| == 1 && |w.sockets| == 1
    ensures w.table == FirstTable(conns, x) && w.given == [x.src] && w.asked == [(x.src, payload)]
    ensures w.delivered == [(x.src, Reply(1, answer, 0, 0))]
  {
    var first := Conversation(x, payload, answer, 0, 0);
    var r := ConversationRuns(Initial(conns), maxConns, x, payload, answer);
    assert r == Request(1, payload, x.src, 0);
    assert Next(Initial(conns), maxConns, Visit(x, payload)).table == FirstTable(conns, x);
    var w1 := After(Initial(conns), maxConns, first);
    w := Next(w1, maxConns, StreamDies(0));
    assert [StreamDies(0)][1..] == [];
    assert Run(w, maxConns, []) && After(w, maxConns, []) == w;
    assert Run(w1, maxConns, [StreamDies(0)]) && After(w1, maxConns, [StreamDies(0)]) == w;
    RunConcat(Initial(conns), maxConns, first, [StreamDies(0)]);
  }

  /** The stream dies between two packets of one visitor: the second one opens a new stream, gets a new
      socket, and its answer reaches the visitor after the first one. */
  lemma ConversationResumes(conns: int, maxConns: int, x: Visitors.Arrival, payload: Payload, answer: Payload,
                            y: Visitors.Arrival, payload': Payload, answer': Payload)
    requires x.allowed && y.allowed && y.src == x.src
    ensures var steps := Conversation(x, payload, answer, 0, 0) + [StreamDies(0)]
                         + Conversation(y, payload', answer', 1, 1);
            && Run(Initial(conns), maxConns, steps)
            && var w := After(Initial(conns), maxConns, steps);
               && w.delivered == [(x.src, Reply(1, answer, 0, 0)), (x.src, Reply(1, answer', 1, 0))]
               && w.stream == Some(1) && |w.sockets| == 2 && w.sockets[1].chan == 1
               && w.sockets[1].heard == [Request(1, payload', x.src, 1)]
  {
    var w := StreamDiesAfterwards(conns, maxConns, x, payload, answer);
    var r := ConversationRuns(w, maxConns, y, payload', answer');
    RunConcat(Initial(conns), maxConns, Conversation(x, payload, answer, 0, 0) + [StreamDies(0)],
              Conversation(y, payload', answer', 1, 1));
  }

  // ---- a second packet over the same stream ----

  /** A relay with one visitor, one stream and one socket. */
  function One(t: Visitors.Table, src: Visitors.Addr, hand: InHand, ch: Channel, socket: Socket,
               delivered: seq<(Visitors.Addr, Reply)>, asked: seq<(Visitors.Addr, Payload)>): World {
    World(t, [src], hand, Some(0), [ch], [socket], delivered, asked)
  }

  const IDLE := NEW_CHANNEL.(backends := map[1 := 0])

  function Talker(heard: seq<Request>, answers: seq<Payload>, unframed: bool): Socket {
    Socket(0, 1, true, true, heard, answers, unframed)
  }

  /** The receive loop's part. */
  lemma AnotherIsSent(t: Visitors.Table, maxConns: int, r: Request, socket: Socket,
                      delivered: seq<(Visitors.Addr, Reply)>, asked: seq<(Visitors.Addr, Payload)>)
    ensures var w := One(t, r.from, Unbound(r), IDLE, socket, delivered, asked);
            var w1 := w.(hand := Bound(r, 0));
            && Leads(w, maxConns, Ensure(true), w1)
            && Leads(w1, maxConns, Send(true), w.(hand := Nothing, channels := [IDLE.(up := [r])]))
  {
    Singletons(r, r);
    Singletons(IDLE, IDLE.(up := [r]));
  }

  /** The dispatcher's part. */
  lemma AnotherIsFed(t: Visitors.Table, maxConns: int, r: Request, heard: seq<Request>, answers: seq<Payload>,
                     delivered: seq<(Visitors.Addr, Reply)>, asked: seq<(Visitors.Addr, Payload)>)
    requires r.id == 1
    ensures var w := One(t, r.from, Nothing, IDLE.(up := [r]), Talker(heard, answers, false), delivered, asked);
            var w1 := w.(channels := [IDLE.(feeding := Some((0, r)))]);
            && Leads(w, maxConns, Dispatch(0, true), w1)
            && Leads(w1, maxConns, Feed(0, true),
                     w.(channels := [IDLE], sockets := [Talker(heard + [r], answers, false)]))
  {
    Singletons(r, r);
    Singletons(IDLE.(up := [r]), IDLE.(feeding := Some((0, r))));
    Singletons(IDLE.(feeding := Some((0, r))), IDLE);
    Singletons(Talker(heard, answers, false), Talker(heard + [r], answers, false));
  }

  /** The socket goroutine's part. */
  lemma AnotherIsAnswered(t: Visitors.Table, maxConns: int, src: Visitors.Addr, heard: seq<Request>,
                          answers: seq<Payload>, answer: Payload, delivered: seq<(Visitors.Addr, Reply)>,
                          asked: seq<(Visitors.Addr, Payload)>)
    ensures var w := One(t, src, Nothing, IDLE, Talker(heard, answers, false), delivered, asked);
            var w1 := w.(sockets := [Talker(heard, answers + [answer], true)]);
            && Leads(w, maxConns, ReadBackend(0, answer), w1)
            && Leads(w1, maxConns, WriteBack(0, true),
                     w.(sockets := [Talker(heard, answers + [answer], false)],
                        channels := [IDLE.(down := [Reply(1, answer, 0, |answers|)])]))
  {
    var reply := Reply(1, answer, 0, |answers|);
    Singletons(reply, reply);
    Singletons(IDLE, IDLE.(down := [reply]));
    Singletons(Talker(heard, answers, false), Talker(heard, answers + [answer], true));
    Singletons(Talker(heard, answers + [answer], true), Talker(heard, answers + [answer], false));
  }

  /** The stream reader's part. */
  lemma AnotherIsDelivered(t: Visitors.Table, maxConns: int, src: Visitors.Addr, socket: Socket, reply: Reply,
                           delivered: seq<(Visitors.Addr, Reply)>, asked: seq<(Visitors.Addr, Payload)>)
    requires src in t.visitors && t.visitors[src].id == reply.id && t.visitors[src].addr == src
    ensures var w := One(t, src, Nothing, IDLE.(down := [reply]), socket, delivered, asked);
            var w1 := w.(channels := [IDLE.(delivery := Some((src, reply)))]);
            && Leads(w, maxConns, LookUp(0, Some(src)), w1)
            && Leads(w1, maxConns, Deliver(0, true), w.(channels := [IDLE], delivered := delivered + [(src, reply)]))
  {
    Singletons(reply, reply);
    Singletons(IDLE.(down := [reply]), IDLE.(delivery := Some((src, reply))));
    Singletons(IDLE.(delivery := Some((src, reply))), IDLE);
  }

  /** A known visitor's packet once it has been let in, over an idle stream and socket. */
  lemma AnotherExchange(t: Visitors.Table, maxConns: int, r: Request, heard: seq<Request>, answers: seq<Payload>,
                        answer: Payload, delivered: seq<(Visitors.Addr, Reply)>, asked: seq<(Visitors.Addr, Payload)>)
    requires r.id == 1 && r.from in t.visitors && t.visitors[r.from].id == 1 && t.visitors[r.from].addr == r.from
    ensures var w := One(t, r.from, Unbound(r), IDLE, Talker(heard, answers, false), delivered, asked);
            var steps := SendSteps(0) + AnswerSteps(r, answer, 0, 0);
            && Run(w, maxConns, steps)
            && After(w, maxConns, steps)
               == One(t, r.from, Nothing, IDLE, Talker(heard + [r], answers + [answer], false),
                      delivered + [(r.from, Reply(1, answer, 0, |answers|))], asked)
  {
    var w := One(t, r.from, Unbound(r), IDLE, Talker(heard, answers, false), delivered, asked);
    var sent := One(t, r.from, Nothing, IDLE.(up := [r]), Talker(heard, answers, false), delivered, asked);
    var fed := One(t, r.from, Nothing, IDLE, Talker(heard + [r], answers, false), delivered, asked);
    var done, reply := Talker(heard + [r], answers + [answer], false), Reply(1, answer, 0, |answers|);
    var framed := One(t, r.from, Nothing, IDLE.(down := [reply]), done, delivered, asked);
    AnotherIsSent(t, maxConns, r, Talker(heard, answers, false), delivered, asked);
    AnotherIsFed(t, maxConns, r, heard, answers, delivered, asked);
    FourSteps(w, maxConns, Ensure(true), w.(hand := Bound(r, 0)), Send(true), sent, Dispatch(0, true),
              sent.(channels := [IDLE.(feeding := Some((0, r)))]), Feed(0, true), fed);
    AnotherIsAnswered(t, maxConns, r.from, heard + [r], answers, answer, delivered, asked);
    AnotherIsDelivered(t, maxConns, r.from, done, reply, delivered, asked);
    FourSteps(fed, maxConns, ReadBackend(0, answer), fed.(sockets := [Talker(heard + [r], answers + [answer], true)]),
              WriteBack(0, true), framed, LookUp(0, Some(r.from)),
              framed.(channels := [IDLE.(delivery := Some((r.from, reply)))]), Deliver(0, true),
              framed.(channels := [IDLE], delivered := delivered + [(r.from, reply)]));
    RunConcat(w, maxConns, SendSteps(0), AnswerSteps(r, answer, 0, 0));
  }

  /** The visitor's second packet finds its stream and its socket: no other is opened, the socket gets both
      requests in their order, and the visitor both answers. */
  lemma SecondPacketSharesTheSocket(conns: int, maxConns: int, x: Visitors.Arrival, payload: Payload, answer: Payload,
                                    y: Visitors.Arrival, payload': Payload, answer': Payload)
    requires x.allowed && y.allowed && y.src == x.src
    ensures var steps := Conversation(x, payload, answer, 0, 0) + Conversation(y, payload', answer', 0, 0);
            var r, r' := Request(1, payload, x.src, 0), Request(1, payload', x.src, 1);
            && Run(Initial(conns), maxConns, steps)
            && var w := After(Initial(conns), maxConns, steps);
               && w.sockets == [Socket(0, 1, true, true, [r] + [r'], [answer] + [answer'], false)]
               && w.delivered == [(x.src, Reply(1, answer, 0, 0))] + [(x.src, Reply(1, answer', 0, 1))]
               && |w.channels| == 1 && w.stream == Some(0)
  {
    var w := AfterFirst(conns, maxConns, x, payload, answer);
    var r, r' := Request(1, payload, x.src, 0), Request(1, payload', x.src, 1);
    var t := Visitors.Touch(w.table, x.src, y.seen).(packets := 2);
    var asked := w.asked + [(x.src, payload')];
    AnotherExchange(t, maxConns, r', [r], [answer], answer', w.delivered, asked);
    var w1 := One(t, x.src, Unbound(r'), IDLE, Talker([r], [answer], false), w.delivered, asked);
    assert Leads(w, maxConns, Visit(y, payload'), w1);
    var steps := SendSteps(0) + AnswerSteps(r', answer', 0, 0);
    Prepend(w, maxConns, Visit(y, payload'), w1, steps, After(w1, maxConns, steps));
    ConversationIs(y, payload', answer', r', 0, 0);
    RunConcat(Initial(conns), maxConns, Conversation(x, payload, answer, 0, 0),
              Conversation(y, payload', answer', 0, 0));
  }

  lemma AfterFirst(conns: int, maxConns: int, x: Visitors.Arrival, payload: Payload, answer: Payload)
    returns (w: World)
    requires x.allowed
    ensures var steps := Conversation(x, payload, answer, 0, 0);
            Run(Initial(conns), maxConns, steps) && After(Initial(conns), maxConns, steps) == w
    ensures w == One(FirstTable(conns, x), x.src, Nothing, IDLE,
                     Talker([Request(1, payload, x.src, 0)], [answer], false), [(x.src, Reply(1, answer, 0, 0))],
                     [(x.src, payload)])
  {
    var r := ConversationRuns(Initial(conns), maxConns, x, payload, answer);
    var w1 := Next(Initial(conns), maxConns, Visit(x, payload));
    assert w1.hand == Unbound(Request(1, payload, x.src, 0)) && w1.table == FirstTable(conns, x);
    w := Served(w1, r, answer);
  }
}
