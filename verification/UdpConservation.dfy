/** Nothing gets lost on the way through the UDP tunnel but by a step that fails: every packet that is let in
    and every answer that is read is in exactly one place, or some failing step has dropped it. */
module UdpConservation {
  import opened Streams
  import opened UdpTunnel

  // ---- packets ----

  function Heard(sockets: seq<Socket>): nat {
    if sockets == [] then 0 else Heard(sockets[..|sockets| - 1]) + |sockets[|sockets| - 1].heard|
  }

  /** Sent on a stream and not yet written to a backend. */
  function Pending(ch: Channel): nat {
    |ch.up| + if ch.feeding.Some? then 1 else 0
  }

  function AllPending(channels: seq<Channel>): nat {
    if channels == [] then 0 else AllPending(channels[..|channels| - 1]) + Pending(channels[|channels| - 1])
  }

  function InLoop(hand: InHand): nat {
    if hand.Nothing? then 0 else 1
  }

  /** A packet is dropped: no stream, a failed write to the stream, no backend, a failed write to it. */
  predicate DropsPacket(w: World, step: Step) {
    match step
    case Ensure(online) => w.stream.None? && !online
    case Send(written) => !written
    case Dispatch(c, dialled) =>
      IsChannel(w, c) && w.channels[c].up != [] && w.channels[c].up[0].id !in w.channels[c].backends && !dialled
    case Feed(_, written) => !written
    case _ => false
  }

  // ---- answers ----

  function Unframed(sockets: seq<Socket>): nat {
    if sockets == [] then 0
    else Unframed(sockets[..|sockets| - 1]) + if sockets[|sockets| - 1].unframed then 1 else 0
  }

  function Answered(sockets: seq<Socket>): nat {
    if sockets == [] then 0 else Answered(sockets[..|sockets| - 1]) + |sockets[|sockets| - 1].answers|
  }

  /** Framed and not yet sent to a visitor. */
  function Returning(ch: Channel): nat {
    |ch.down| + if ch.delivery.Some? then 1 else 0
  }

  function AllReturning(channels: seq<Channel>): nat {
    if channels == [] then 0 else AllReturning(channels[..|channels| - 1]) + Returning(channels[|channels| - 1])
  }

  /** An answer is dropped: a failed write to the stream, no visitor, a failed write to it. */
  predicate DropsAnswer(step: Step) {
    match step
    case WriteBack(_, written) => !written
    case LookUp(_, found) => found.None?
    case Deliver(_, written) => !written
    case _ => false
  }

  // ---- sums ----

  lemma {:induction false} SocketSums(sockets: seq<Socket>, s: nat, socket: Socket)
    requires s < |sockets|
    ensures Heard(sockets[s := socket]) == Heard(sockets) - |sockets[s].heard| + |socket.heard|
    ensures Answered(sockets[s := socket]) == Answered(sockets) - |sockets[s].answers| + |socket.answers|
    ensures Unframed(sockets[s := socket])
         == Unframed(sockets) - (if sockets[s].unframed then 1 else 0) + if socket.unframed then 1 else 0
  {
    var front := sockets[..|sockets| - 1];
    if s < |sockets| - 1 {
      SocketSums(front, s, socket);
      assert sockets[s := socket][..|sockets| - 1] == front[s := socket];
    } else {
      assert sockets[s := socket][..|sockets| - 1] == front;
    }
  }

  lemma {:induction false} ChannelSums(channels: seq<Channel>, c: nat, ch: Channel)
    requires c < |channels|
    ensures AllPending(channels[c := ch]) == AllPending(channels) - Pending(channels[c]) + Pending(ch)
    ensures AllReturning(channels[c := ch]) == AllReturning(channels) - Returning(channels[c]) + Returning(ch)
  {
    var front := channels[..|channels| - 1];
    if c < |channels| - 1 {
      ChannelSums(front, c, ch);
      assert channels[c := ch][..|channels| - 1] == front[c := ch];
    } else {
      assert channels[c := ch][..|channels| - 1] == front;
    }
  }

  lemma OneMoreSocket(sockets: seq<Socket>, socket: Socket)
    ensures Heard(sockets + [socket]) == Heard(sockets) + |socket.heard|
    ensures Answered(sockets + [socket]) == Answered(sockets) + |socket.answers|
    ensures Unframed(sockets + [socket]) == Unframed(sockets) + if socket.unframed then 1 else 0
  {
    assert (sockets + [socket])[..|sockets|] == sockets;
  }

  lemma OneMoreChannel(channels: seq<Channel>)
    ensures AllPending(channels + [NEW_CHANNEL]) == AllPending(channels)
    ensures AllReturning(channels + [NEW_CHANNEL]) == AllReturning(channels)
  {
    assert (channels + [NEW_CHANNEL])[..|channels|] == channels;
  }

  /** Closing sockets moves nothing. */
  lemma {:induction false} ClosingMovesNothing(sockets: seq<Socket>, sockets': seq<Socket>)
    requires |sockets'| == |sockets|
    requires forall s :: 0 <= s < |sockets| ==>
        && sockets'[s].heard == sockets[s].heard && sockets'[s].answers == sockets[s].answers
        && sockets'[s].unframed == sockets[s].unframed
    ensures Heard(sockets') == Heard(sockets) && Answered(sockets') == Answered(sockets)
    ensures Unframed(sockets') == Unframed(sockets)
  {
    if sockets != [] {
      ClosingMovesNothing(sockets[..|sockets| - 1], sockets'[..|sockets'| - 1]);
    }
  }

  // ---- every step ----

  /** Where the packets let in, and the answers read, are. */
  function Packets(w: World): nat {
    InLoop(w.hand) + AllPending(w.channels) + Heard(w.sockets)
  }

  function Answers(w: World): nat {
    Unframed(w.sockets) + AllReturning(w.channels) + |w.delivered|
  }

  ghost predicate Balanced(w: World, step: Step, w': World) {
    && Packets(w') + (if DropsPacket(w, step) then 1 else 0) == Packets(w) + |w'.asked| - |w.asked|
    && Answers(w') + (if DropsAnswer(step) then 1 else 0) == Answers(w) + Answered(w'.sockets) - Answered(w.sockets)
  }

  lemma VisitBalances(w: World, maxConns: int, step: Step)
    requires Enabled(w, step) && step.Visit?
    ensures Balanced(w, step, Next(w, maxConns, step))
  {
    assert Next(w, maxConns, step).channels == w.channels && Next(w, maxConns, step).sockets == w.sockets;
  }

  lemma EnsureBalances(w: World, maxConns: int, online: bool)
    requires Enabled(w, Ensure(online))
    ensures Balanced(w, Ensure(online), Next(w, maxConns, Ensure(online)))
  {
    var w' := Next(w, maxConns, Ensure(online));
    assert w'.asked == w.asked && w'.sockets == w.sockets && w'.delivered == w.delivered;
    if w.stream.None? && online {
      OneMoreChannel(w.channels);
    } else {
      assert w'.channels == w.channels;
    }
  }

  lemma SendBalances(w: World, maxConns: int, written: bool)
    requires Enabled(w, Send(written))
    ensures Balanced(w, Send(written), Next(w, maxConns, Send(written)))
  {
    var ch := w.channels[w.hand.chan];
    ChannelSums(w.channels, w.hand.chan, ch.(up := ch.up + [w.hand.request]));
  }

  lemma DispatchBalances(w: World, maxConns: int, c: nat, dialled: bool)
    requires Enabled(w, Dispatch(c, dialled))
    ensures Balanced(w, Dispatch(c, dialled), Next(w, maxConns, Dispatch(c, dialled)))
  {
    var w', r := Next(w, maxConns, Dispatch(c, dialled)), w.channels[c].up[0];
    ChannelSums(w.channels, c, w'.channels[c]);
    OneMoreSocket(w.sockets, Socket(c, r.id, true, true, [], [], false));
  }

  lemma FeedBalances(w: World, maxConns: int, c: nat, written: bool)
    requires Enabled(w, Feed(c, written))
    ensures Balanced(w, Feed(c, written), Next(w, maxConns, Feed(c, written)))
  {
    var w', s := Next(w, maxConns, Feed(c, written)), w.channels[c].feeding.value.0;
    ChannelSums(w.channels, c, w'.channels[c]);
    SocketSums(w.sockets, s, w'.sockets[s]);
  }

  lemma LeaveBalances(w: World, maxConns: int, c: nat)
    requires Enabled(w, Leave(c))
    ensures Balanced(w, Leave(c), Next(w, maxConns, Leave(c)))
  {
    var w' := Next(w, maxConns, Leave(c));
    ChannelSums(w.channels, c, w'.channels[c]);
    ClosingMovesNothing(w.sockets, w'.sockets);
  }

  lemma ReadBalances(w: World, maxConns: int, s: nat, reply: Payload)
    requires Enabled(w, ReadBackend(s, reply))
    ensures Balanced(w, ReadBackend(s, reply), Next(w, maxConns, ReadBackend(s, reply)))
  {
    SocketSums(w.sockets, s, Next(w, maxConns, ReadBackend(s, reply)).sockets[s]);
  }

  lemma WriteBackBalances(w: World, maxConns: int, s: nat, written: bool)
    requires Enabled(w, WriteBack(s, written))
    ensures Balanced(w, WriteBack(s, written), Next(w, maxConns, WriteBack(s, written)))
  {
    var w', c := Next(w, maxConns, WriteBack(s, written)), w.sockets[s].chan;
    ChannelSums(w.channels, c, w'.channels[c]);
    SocketSums(w.sockets, s, w'.sockets[s]);
  }

  lemma SocketEndBalances(w: World, maxConns: int, s: nat)
    requires Enabled(w, SocketEnds(s))
    ensures Balanced(w, SocketEnds(s), Next(w, maxConns, SocketEnds(s)))
  {
    var w', c := Next(w, maxConns, SocketEnds(s)), w.sockets[s].chan;
    ChannelSums(w.channels, c, w'.channels[c]);
    SocketSums(w.sockets, s, w'.sockets[s]);
  }

  lemma ReaderBalances(w: World, maxConns: int, step: Step)
    requires Enabled(w, step) && (step.LookUp? || step.Deliver? || step.StreamDies?)
    ensures Balanced(w, step, Next(w, maxConns, step))
  {
    ChannelSums(w.channels, step.c, Next(w, maxConns, step).channels[step.c]);
  }

  lemma StepBalances(w: World, maxConns: int, step: Step)
    requires Enabled(w, step)
    ensures Balanced(w, step, Next(w, maxConns, step))
  {
    match step
    case Visit(_, _) => VisitBalances(w, maxConns, step);
    case Ensure(online) => EnsureBalances(w, maxConns, online);
    case Send(written) => SendBalances(w, maxConns, written);
    case Dispatch(c, dialled) => DispatchBalances(w, maxConns, c, dialled);
    case Feed(c, written) => FeedBalances(w, maxConns, c, written);
    case Leave(c) => LeaveBalances(w, maxConns, c);
    case ReadBackend(s, reply) => ReadBalances(w, maxConns, s, reply);
    case WriteBack(s, written) => WriteBackBalances(w, maxConns, s, written);
    case SocketEnds(s) => SocketEndBalances(w, maxConns, s);
    case LookUp(_, _) => ReaderBalances(w, maxConns, step);
    case Deliver(_, _) => ReaderBalances(w, maxConns, step);
    case StreamDies(_) => ReaderBalances(w, maxConns, step);
  }

  // ---- every run ----

  ghost function PacketsDropped(w: World, maxConns: int, steps: seq<Step>): nat
    requires Run(w, maxConns, steps)
    decreases |steps|
  {
    if steps == [] then 0
    else (if DropsPacket(w, steps[0]) then 1 else 0) + PacketsDropped(Next(w, maxConns, steps[0]), maxConns, steps[1..])
  }

  function AnswersDropped(steps: seq<Step>): nat {
    if steps == [] then 0 else (if DropsAnswer(steps[0]) then 1 else 0) + AnswersDropped(steps[1..])
  }

  lemma {:induction false} RunBalances(w: World, maxConns: int, steps: seq<Step>)
    requires Run(w, maxConns, steps)
    ensures var w' := After(w, maxConns, steps);
            && Packets(w') + PacketsDropped(w, maxConns, steps) == Packets(w) + |w'.asked| - |w.asked|
            && Answers(w') + AnswersDropped(steps) == Answers(w) + Answered(w'.sockets) - Answered(w.sockets)
    decreases |steps|
  {
    if steps != [] {
      StepBalances(w, maxConns, steps[0]);
      RunBalances(Next(w, maxConns, steps[0]), maxConns, steps[1..]);
    }
  }

  /** In every run: the packets let in are those in the receive loop's hand, on their way, or heard by a
      backend, and one for each step that dropped one; and the answers read are those waiting to be framed, on
      their way, or delivered, and one for each step that dropped one. So where no step fails, nothing is
      lost. */
  lemma NothingIsLostButByFailures(conns: int, maxConns: int, steps: seq<Step>)
    requires Run(Initial(conns), maxConns, steps)
    ensures var w := After(Initial(conns), maxConns, steps);
            && |w.asked| == (if w.hand.Nothing? then 0 else 1) + AllPending(w.channels) + Heard(w.sockets)
                            + PacketsDropped(Initial(conns), maxConns, steps)
            && Answered(w.sockets) == Unframed(w.sockets) + AllReturning(w.channels) + |w.delivered|
                                      + AnswersDropped(steps)
  {
    RunBalances(Initial(conns), maxConns, steps);
  }
}
