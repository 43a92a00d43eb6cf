/** Backend sockets that outlive their stream (client/client.go handleUDPStream): a socket's goroutine
    deletes by connID, so it may take a newer socket out of the table, and closing all sockets in the
    table then passes that one over. Which open sockets a dispatcher leaves behind, in every run. */
module UdpSockets {
  import opened Streams
  import Maps
  import opened UdpTunnel

  predicate Filed(w: World, s: nat)
    requires IsSocket(w, s)
  {
    var socket := w.sockets[s];
    var backends := w.channels[socket.chan].backends;
    socket.id in backends && backends[socket.id] == s
  }

  /** An open socket that its stream's table does not hold. */
  predicate Adrift(w: World, s: nat) {
    IsSocket(w, s) && w.sockets[s].open && !Filed(w, s)
  }

  /** The goroutine of an older socket of the same stream and connID cleans up. */
  predicate Displaces(w: World, step: Step, s: nat) {
    && step.SocketEnds? && step.s != s && IsSocket(w, s) && IsSocket(w, step.s) && Filed(w, s)
    && w.sockets[step.s].chan == w.sockets[s].chan && w.sockets[step.s].id == w.sockets[s].id
  }

  // ---- what every step keeps ----

  /** A table holds sockets of its own stream under their own ids. */
  ghost predicate TableOk(sockets: seq<Socket>, c: nat, backends: map<int, nat>) {
    forall id :: id in backends ==>
      backends[id] < |sockets| && sockets[backends[id]].id == id && sockets[backends[id]].chan == c
  }

  /** The socket the dispatcher is about to write to is the one in the table, if there is one. */
  predicate HoldOk(sockets: seq<Socket>, c: nat, backends: map<int, nat>, s: nat, id: int) {
    && s < |sockets| && sockets[s].id == id && sockets[s].chan == c
    && (id in backends ==> backends[id] == s)
  }

  ghost predicate ChannelFiled(sockets: seq<Socket>, c: nat, ch: Channel) {
    && TableOk(sockets, c, ch.backends)
    && (ch.feeding.Some? ==> HoldOk(sockets, c, ch.backends, ch.feeding.value.0, ch.feeding.value.1.id))
  }

  ghost predicate AllFiled(w: World) {
    && (forall s :: 0 <= s < |w.sockets| ==> w.sockets[s].chan < |w.channels|)
    && (forall c :: 0 <= c < |w.channels| ==> ChannelFiled(w.sockets, c, w.channels[c]))
  }

  /** Sockets keep their stream and connID, and never open again. */
  ghost predicate SocketsKeep(w: World, w': World) {
    && |w.sockets| <= |w'.sockets| && |w.channels| <= |w'.channels|
    && forall s :: 0 <= s < |w.sockets| ==>
         w'.sockets[s].id == w.sockets[s].id && w'.sockets[s].chan == w.sockets[s].chan
         && (w'.sockets[s].open ==> w.sockets[s].open)
  }

  lemma StepKeepsSockets(w: World, maxConns: int, step: Step)
    requires Enabled(w, step)
    ensures SocketsKeep(w, Next(w, maxConns, step))
  {
  }

  lemma ChannelStaysFiled(w: World, w': World, c: nat, ch: Channel, ch': Channel)
    requires ChannelFiled(w.sockets, c, ch) && SocketsKeep(w, w')
    requires ch'.feeding == ch.feeding
    requires ch'.backends == ch.backends || exists id :: ch'.backends == ch.backends - {id}
    ensures ChannelFiled(w'.sockets, c, ch')
  {
    forall id | id in ch'.backends
      ensures ch'.backends[id] < |w'.sockets| && w'.sockets[ch'.backends[id]].id == id
              && w'.sockets[ch'.backends[id]].chan == c
    {
      assert id in ch.backends && ch'.backends[id] == ch.backends[id];
      assert w'.sockets[ch.backends[id]].id == w.sockets[ch.backends[id]].id;
    }
    if ch.feeding.Some? {
      assert w'.sockets[ch.feeding.value.0].id == w.sockets[ch.feeding.value.0].id;
    }
  }

  /** The table and the request in hand of every channel but `c` are as they were. */
  lemma OthersStayFiled(w: World, w': World, c: nat)
    requires AllFiled(w) && SocketsKeep(w, w') && |w'.channels| == |w.channels|
    requires forall s :: |w.sockets| <= s < |w'.sockets| ==> w'.sockets[s].chan < |w'.channels|
    requires forall i :: 0 <= i < |w.channels| && i != c ==>
        w'.channels[i].backends == w.channels[i].backends && w'.channels[i].feeding == w.channels[i].feeding
    requires c < |w.channels| ==> ChannelFiled(w'.sockets, c, w'.channels[c])
    ensures AllFiled(w')
  {
    forall i | 0 <= i < |w'.channels| && i != c ensures ChannelFiled(w'.sockets, i, w'.channels[i]) {
      ChannelStaysFiled(w, w', i, w.channels[i], w'.channels[i]);
    }
  }

  lemma DispatcherStepKeepsFiled(w: World, maxConns: int, step: Step)
    requires AllFiled(w) && Enabled(w, step) && (step.Dispatch? || step.Feed? || step.Leave?)
    ensures AllFiled(Next(w, maxConns, step))
  {
    var w' := Next(w, maxConns, step);
    StepKeepsSockets(w, maxConns, step);
    assert ChannelFiled(w.sockets, step.c, w.channels[step.c]);
    assert ChannelFiled(w'.sockets, step.c, w'.channels[step.c]);
    OthersStayFiled(w, w', step.c);
  }

  lemma SocketStepKeepsFiled(w: World, maxConns: int, step: Step)
    requires AllFiled(w) && Enabled(w, step) && (step.ReadBackend? || step.WriteBack? || step.SocketEnds?)
    ensures AllFiled(Next(w, maxConns, step))
  {
    var w', c := Next(w, maxConns, step), w.sockets[step.s].chan;
    StepKeepsSockets(w, maxConns, step);
    ChannelStaysFiled(w, w', c, w.channels[c], w'.channels[c]);
    OthersStayFiled(w, w', c);
  }

  lemma StepKeepsFiled(w: World, maxConns: int, step: Step)
    requires AllFiled(w) && Enabled(w, step)
    ensures AllFiled(Next(w, maxConns, step))
  {
    if step.Dispatch? || step.Feed? || step.Leave? {
      DispatcherStepKeepsFiled(w, maxConns, step);
    } else if step.ReadBackend? || step.WriteBack? || step.SocketEnds? {
      SocketStepKeepsFiled(w, maxConns, step);
    } else {
      var w' := Next(w, maxConns, step);
      StepKeepsSockets(w, maxConns, step);
      forall c | 0 <= c < |w'.channels| ensures ChannelFiled(w'.sockets, c, w'.channels[c]) {
        if c < |w.channels| {
          ChannelStaysFiled(w, w', c, w.channels[c], w'.channels[c]);
        }
      }
    }
  }

  // ---- which sockets are adrift ----

  lemma LeaveCloses(w: World, maxConns: int, c: nat, s: nat)
    requires AllFiled(w) && Enabled(w, Leave(c)) && s < |w.sockets|
    ensures var w' := Next(w, maxConns, Leave(c));
            w'.sockets[s].open <==> w.sockets[s].open && !(w.sockets[s].chan == c && Filed(w, s))
  {
    assert ChannelFiled(w.sockets, c, w.channels[c]);
    if s in w.channels[c].backends.Values {
      var id := Maps.KeyOf(w.channels[c].backends, s);
      assert Filed(w, s);
    }
  }

  /** What `step` has to do with the socket `s`: it is adrift afterwards if it is open, and was adrift or is
      displaced. */
  ghost predicate SetsAdrift(w: World, step: Step, w': World, s: nat) {
    Adrift(w', s) <==> s < |w'.sockets| && w'.sockets[s].open && (Adrift(w, s) || Displaces(w, step, s))
  }

  lemma DispatchSetsNoneAdrift(w: World, maxConns: int, c: nat, dialled: bool, s: nat)
    requires AllFiled(w) && Enabled(w, Dispatch(c, dialled))
    ensures SetsAdrift(w, Dispatch(c, dialled), Next(w, maxConns, Dispatch(c, dialled)), s)
  {
  }

  lemma FeedSetsNoneAdrift(w: World, maxConns: int, c: nat, written: bool, s: nat)
    requires AllFiled(w) && Enabled(w, Feed(c, written))
    ensures SetsAdrift(w, Feed(c, written), Next(w, maxConns, Feed(c, written)), s)
  {
    assert ChannelFiled(w.sockets, c, w.channels[c]);
  }

  lemma LeaveSetsNoneAdrift(w: World, maxConns: int, c: nat, s: nat)
    requires AllFiled(w) && Enabled(w, Leave(c))
    ensures SetsAdrift(w, Leave(c), Next(w, maxConns, Leave(c)), s)
  {
    if s < |w.sockets| {
      LeaveCloses(w, maxConns, c, s);
    }
  }

  lemma SocketSetsAdriftIff(w: World, maxConns: int, step: Step, s: nat)
    requires AllFiled(w) && Enabled(w, step) && (step.ReadBackend? || step.WriteBack? || step.SocketEnds?)
    ensures SetsAdrift(w, step, Next(w, maxConns, step), s)
  {
  }

  lemma StepSetsAdriftIff(w: World, maxConns: int, step: Step, s: nat)
    requires AllFiled(w) && Enabled(w, step)
    ensures SetsAdrift(w, step, Next(w, maxConns, step), s)
  {
    match step
    case Dispatch(c, dialled) => DispatchSetsNoneAdrift(w, maxConns, c, dialled, s);
    case Feed(c, written) => FeedSetsNoneAdrift(w, maxConns, c, written, s);
    case Leave(c) => LeaveSetsNoneAdrift(w, maxConns, c, s);
    case ReadBackend(_, _) => SocketSetsAdriftIff(w, maxConns, step, s);
    case WriteBack(_, _) => SocketSetsAdriftIff(w, maxConns, step, s);
    case SocketEnds(_) => SocketSetsAdriftIff(w, maxConns, step, s);
    case _ =>
  }

  /** Some step of the run displaces `s`. */
  ghost predicate EverDisplaced(w: World, maxConns: int, steps: seq<Step>, s: nat)
    requires Run(w, maxConns, steps)
    decreases |steps|
  {
    steps != []
    && (Displaces(w, steps[0], s) || EverDisplaced(Next(w, maxConns, steps[0]), maxConns, steps[1..], s))
  }

  lemma {:induction false} RunKeepsSockets(w: World, maxConns: int, steps: seq<Step>)
    requires Run(w, maxConns, steps)
    ensures SocketsKeep(w, After(w, maxConns, steps))
    decreases |steps|
  {
    if steps != [] {
      StepKeepsSockets(w, maxConns, steps[0]);
      RunKeepsSockets(Next(w, maxConns, steps[0]), maxConns, steps[1..]);
    }
  }

  lemma {:induction false} RunKeepsFiled(w: World, maxConns: int, steps: seq<Step>)
    requires AllFiled(w) && Run(w, maxConns, steps)
    ensures AllFiled(After(w, maxConns, steps))
    decreases |steps|
  {
    if steps != [] {
      StepKeepsFiled(w, maxConns, steps[0]);
      RunKeepsFiled(Next(w, maxConns, steps[0]), maxConns, steps[1..]);
    }
  }

  lemma {:induction false} RunSetsAdriftIff(w: World, maxConns: int, steps: seq<Step>, s: nat)
    requires AllFiled(w) && Run(w, maxConns, steps)
    ensures var w' := After(w, maxConns, steps);
            Adrift(w', s)
            <==> s < |w'.sockets| && w'.sockets[s].open && (Adrift(w, s) || EverDisplaced(w, maxConns, steps, s))
    decreases |steps|
  {
    if steps == [] {
      assert Adrift(w, s) ==> s < |w.sockets|;
    } else {
      var w1 := Next(w, maxConns, steps[0]);
      StepKeepsFiled(w, maxConns, steps[0]);
      StepSetsAdriftIff(w, maxConns, steps[0], s);
      StepKeepsSockets(w, maxConns, steps[0]);
      RunKeepsSockets(w1, maxConns, steps[1..]);
      RunSetsAdriftIff(w1, maxConns, steps[1..], s);
    }
  }

  /** When a stream has failed and its dispatcher closes all sockets in its table: of the stream's open
      sockets exactly those stay open that the late cleanup of an older one had taken out of the table. */
  lemma LeaveLeavesOpenIff(conns: int, maxConns: int, steps: seq<Step>, c: nat, s: nat)
    requires Run(Initial(conns), maxConns, steps) && Enabled(After(Initial(conns), maxConns, steps), Leave(c))
    requires s < |After(Initial(conns), maxConns, steps).sockets|
             && After(Initial(conns), maxConns, steps).sockets[s].chan == c
    ensures var w := After(Initial(conns), maxConns, steps);
            Next(w, maxConns, Leave(c)).sockets[s].open
            <==> w.sockets[s].open && EverDisplaced(Initial(conns), maxConns, steps, s)
  {
    RunKeepsFiled(Initial(conns), maxConns, steps);
    RunSetsAdriftIff(Initial(conns), maxConns, steps, s);
    LeaveCloses(After(Initial(conns), maxConns, steps), maxConns, c, s);
  }

  /** The dispatcher of channel `c` is gone. */
  predicate Abandoned(w: World, c: nat) {
    c < |w.channels| && !w.channels[c].dispatching && w.channels[c].feeding.None?
  }

  lemma AbandonedStep(w: World, maxConns: int, step: Step, s: nat)
    requires AllFiled(w) && Enabled(w, step) && s < |w.sockets| && Abandoned(w, w.sockets[s].chan)
    ensures var w' := Next(w, maxConns, step);
            && s < |w'.sockets| && Abandoned(w', w'.sockets[s].chan)
            && (w'.sockets[s].open <==> w.sockets[s].open && step != SocketEnds(s))
  {
    StepKeepsSockets(w, maxConns, step);
    if step.Leave? {
      LeaveCloses(w, maxConns, step.c, s);
    }
    if step.Feed? {
      assert ChannelFiled(w.sockets, step.c, w.channels[step.c]);
    }
  }

  /** Such a socket is then closed by its own goroutine and by nothing else, in whatever way things go on. */
  lemma {:induction false} LeftSocketsEndThemselves(w: World, maxConns: int, steps: seq<Step>, s: nat)
    requires AllFiled(w) && Run(w, maxConns, steps) && s < |w.sockets| && Abandoned(w, w.sockets[s].chan)
    ensures var w' := After(w, maxConns, steps);
            && s < |w'.sockets|
            && (w'.sockets[s].open <==> w.sockets[s].open && SocketEnds(s) !in steps)
    decreases |steps|
  {
    if steps != [] {
      AbandonedStep(w, maxConns, steps[0], s);
      StepKeepsFiled(w, maxConns, steps[0]);
      LeftSocketsEndThemselves(Next(w, maxConns, steps[0]), maxConns, steps[1..], s);
      assert steps == [steps[0]] + steps[1..];
    }
  }

  /** A step of the dispatcher of channel c, or of the goroutine of socket s. */
  predicate OfDispatcher(step: Step, c: nat) {
    (step.Dispatch? || step.Feed? || step.Leave?) && step.c == c
  }

  predicate OfSocket(step: Step, s: nat) {
    (step.ReadBackend? || step.WriteBack? || step.SocketEnds?) && step.s == s
  }

  lemma {:induction false} AbandonedStaysSo(w: World, maxConns: int, steps: seq<Step>, c: nat)
    requires Abandoned(w, c) && Run(w, maxConns, steps)
    ensures forall step :: step in steps ==> !OfDispatcher(step, c)
    decreases |steps|
  {
    if steps != [] {
      var w' := Next(w, maxConns, steps[0]);
      assert Abandoned(w', c);
      AbandonedStaysSo(w', maxConns, steps[1..], c);
      assert steps == [steps[0]] + steps[1..];
    }
  }

  /** When the dispatcher of a stream has closed its sockets it dials none again, nor writes to any. */
  lemma LeavingIsFinal(w: World, maxConns: int, c: nat, steps: seq<Step>)
    requires Enabled(w, Leave(c)) && Run(Next(w, maxConns, Leave(c)), maxConns, steps)
    ensures Abandoned(Next(w, maxConns, Leave(c)), c)
    ensures forall step :: step in steps ==> !OfDispatcher(step, c)
  {
    AbandonedStaysSo(Next(w, maxConns, Leave(c)), maxConns, steps, c);
  }

  lemma {:induction false} EndedStaysSo(w: World, maxConns: int, steps: seq<Step>, s: nat)
    requires s < |w.sockets| && !w.sockets[s].looping && !w.sockets[s].open && Run(w, maxConns, steps)
    ensures s < |After(w, maxConns, steps).sockets| && !After(w, maxConns, steps).sockets[s].open
    ensures forall step :: step in steps ==> !OfSocket(step, s)
    decreases |steps|
  {
    if steps != [] {
      var w' := Next(w, maxConns, steps[0]);
      StepKeepsSockets(w, maxConns, steps[0]);
      assert !w'.sockets[s].looping;
      EndedStaysSo(w', maxConns, steps[1..], s);
      assert steps == [steps[0]] + steps[1..];
    }
  }

  /** When the goroutine of a socket has ended, its socket stays closed and it does nothing more. */
  lemma EndingIsFinal(w: World, maxConns: int, s: nat, steps: seq<Step>)
    requires Enabled(w, SocketEnds(s)) && Run(Next(w, maxConns, SocketEnds(s)), maxConns, steps)
    ensures var w' := After(Next(w, maxConns, SocketEnds(s)), maxConns, steps);
            s < |w'.sockets| && !w'.sockets[s].open
    ensures forall step :: step in steps ==> !OfSocket(step, s)
  {
    EndedStaysSo(Next(w, maxConns, SocketEnds(s)), maxConns, steps, s);
  }

  // ---- a run in which one is left ----

  /** A visitor's first packet could not be written to its socket, and a second one has been sent. */
  function Retried(conns: int, x: Visitors.Arrival, payload: Payload): World {
    World(FirstTable(conns, x).(packets := 2), [x.src], Nothing, Some(0),
          [NEW_CHANNEL.(up := [Request(1, payload, x.src, 1)])], [Socket(0, 1, false, true, [], [], false)], [],
          [(x.src, payload), (x.src, payload)])
  }

  /** It has got a socket of its own, and the goroutine of the first one has cleaned up. */
  function Displaced(conns: int, x: Visitors.Arrival, payload: Payload): World {
    Retried(conns, x, payload).(
      channels := [NEW_CHANNEL],
      sockets := [Socket(0, 1, false, false, [], [], false),
                  Socket(0, 1, true, true, [Request(1, payload, x.src, 1)], [], false)])
  }

  lemma WriteFails(conns: int, maxConns: int, x: Visitors.Arrival, payload: Payload)
    requires x.allowed
    ensures var steps := [Feed(0, false), Visit(x, payload)] + [Ensure(true), Send(true)];
            && Run(Dialled(conns, x, payload), maxConns, steps)
            && After(Dialled(conns, x, payload), maxConns, steps) == Retried(conns, x, payload)
  {
    var w0, w4, r := Dialled(conns, x, payload), Retried(conns, x, payload), Request(1, payload, x.src, 1);
    var w3 := w4.(hand := Bound(r, 0), channels := [NEW_CHANNEL]);
    var w2 := w3.(hand := Unbound(r));
    var w1 := w2.(hand := Nothing, table := FirstTable(conns, x), asked := [(x.src, payload)]);
    Singletons(w0.channels[0], w1.channels[0]);
    Singletons(w0.sockets[0], w1.sockets[0]);
    assert map[1 := 0] - {1} == map[];
    TwoSteps(w0, maxConns, Feed(0, false), w1, Visit(x, payload), w2);
    Singletons(r, r);
    Singletons(w3.channels[0], w4.channels[0]);
    TwoSteps(w2, maxConns, Ensure(true), w3, Send(true), w4);
    RunConcat(w0, maxConns, [Feed(0, false), Visit(x, payload)], [Ensure(true), Send(true)]);
  }

  lemma CleanupDisplaces(conns: int, maxConns: int, x: Visitors.Arrival, payload: Payload)
    ensures var steps := [Dispatch(0, true), Feed(0, true)] + [SocketEnds(0)];
            && Run(Retried(conns, x, payload), maxConns, steps)
            && After(Retried(conns, x, payload), maxConns, steps) == Displaced(conns, x, payload)
  {
    var w0, w3, r := Retried(conns, x, payload), Displaced(conns, x, payload), Request(1, payload, x.src, 1);
    var first, second := Socket(0, 1, false, true, [], [], false), Socket(0, 1, true, true, [], [], false);
    var w1 := w0.(channels := [NEW_CHANNEL.(backends := map[1 := 1], feeding := Some((1, r)))],
                  sockets := [first, second]);
    var w2 := w1.(channels := [NEW_CHANNEL.(backends := map[1 := 1])],
                  sockets := [first, second.(heard := [r])]);
    Singletons(r, r);
    Singletons(w0.channels[0], w1.channels[0]);
    Singletons(w1.channels[0], w2.channels[0]);
    assert [first] + [second] == [first, second];
    assert [] + [r] == [r];
    assert [first, second][1 := second.(heard := [r])] == [first, second.(heard := [r])];
    TwoSteps(w0, maxConns, Dispatch(0, true), w1, Feed(0, true), w2);
    Singletons(w2.channels[0], w3.channels[0]);
    assert map[1 := 1] - {1} == map[];
    assert w2.sockets[0 := first.(open := false, looping := false)] == w3.sockets;
    assert Leads(w2, maxConns, SocketEnds(0), w3);
    assert [SocketEnds(0)][1..] == [];
    assert Run(w3, maxConns, []) && After(w3, maxConns, []) == w3;
    RunConcat(w0, maxConns, [Dispatch(0, true), Feed(0, true)], [SocketEnds(0)]);
  }

  /** It happens: a write fails, the visitor's next packet gets a new socket, the old one's goroutine cleans
      up, and when the stream fails the new socket stays open. */
  lemma ASocketIsLeftOpen(conns: int, maxConns: int, x: Visitors.Arrival, payload: Payload)
    returns (steps: seq<Step>)
    requires x.allowed
    ensures Run(Initial(conns), maxConns, steps) && Enabled(After(Initial(conns), maxConns, steps), Leave(0))
    ensures var w := Next(After(Initial(conns), maxConns, steps), maxConns, Leave(0));
            |w.sockets| == 2 && w.sockets[1].open && w.channels[0].backends == map[]
  {
    PacketIsAdmitted(conns, maxConns, x, payload);
    BackendIsDialled(conns, maxConns, x, payload);
    WriteFails(conns, maxConns, x, payload);
    CleanupDisplaces(conns, maxConns, x, payload);
    var dial := [Send(true), Dispatch(0, true)];
    var retry := [Feed(0, false), Visit(x, payload)] + [Ensure(true), Send(true)];
    var displace := [Dispatch(0, true), Feed(0, true)] + [SocketEnds(0)];
    RunConcat(Dialled(conns, x, payload), maxConns, retry, displace);
    RunConcat(Ready(conns, x, payload), maxConns, dial, retry + displace);
    RunConcat(Initial(conns), maxConns, [Visit(x, payload), Ensure(true)], dial + (retry + displace));
    steps := [Visit(x, payload), Ensure(true)] + (dial + (retry + displace));
  }
}
