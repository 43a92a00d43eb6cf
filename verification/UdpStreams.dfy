/** The stream of a UDP relay (server/forward.go ensure): at most one is being read, it is the current one,
    a dead one is forgotten and no other, and every packet goes to a stream that is alive. */
module UdpStreams {
  import opened Streams
  import opened UdpTunnel

  // ---- the current stream is the one that is being read ----

  ghost predicate OneIsRead(w: World) {
    && (w.stream.Some? ==> IsChannel(w, w.stream.value))
    && forall c :: 0 <= c < |w.channels| ==> (w.channels[c].reading <==> w.stream == Some(c))
  }

  /** A step that opens no stream and ends none. */
  ghost predicate SameStreams(w: World, w': World) {
    && w'.stream == w.stream && |w'.channels| == |w.channels|
    && forall c :: 0 <= c < |w.channels| ==> w'.channels[c].reading == w.channels[c].reading
  }

  lemma ServerStepKeepsStreams(w: World, maxConns: int, step: Step)
    requires Enabled(w, step) && (step.Visit? || step.Send? || step.LookUp? || step.Deliver?)
    ensures SameStreams(w, Next(w, maxConns, step))
  {
  }

  lemma ClientStepKeepsStreams(w: World, maxConns: int, step: Step)
    requires Enabled(w, step) && !step.Visit? && !step.Ensure? && !step.Send? && !step.LookUp? && !step.Deliver?
    requires !step.StreamDies?
    ensures SameStreams(w, Next(w, maxConns, step))
  {
  }

  lemma StepKeepsOneRead(w: World, maxConns: int, step: Step)
    requires OneIsRead(w) && Enabled(w, step)
    ensures OneIsRead(Next(w, maxConns, step))
  {
    if step.Visit? || step.Send? || step.LookUp? || step.Deliver? {
      ServerStepKeepsStreams(w, maxConns, step);
    } else if !step.Ensure? && !step.StreamDies? {
      ClientStepKeepsStreams(w, maxConns, step);
    }
  }

  lemma {:induction false} RunKeepsOneRead(w: World, maxConns: int, steps: seq<Step>)
    requires OneIsRead(w) && Run(w, maxConns, steps)
    ensures OneIsRead(After(w, maxConns, steps))
    decreases |steps|
  {
    if steps != [] {
      StepKeepsOneRead(w, maxConns, steps[0]);
      RunKeepsOneRead(Next(w, maxConns, steps[0]), maxConns, steps[1..]);
    }
  }

  /** In every run: a stream is being read exactly when it is the relay's current one. */
  lemma CurrentStreamIsTheOneRead(conns: int, maxConns: int, steps: seq<Step>)
    requires Run(Initial(conns), maxConns, steps)
    ensures var w := After(Initial(conns), maxConns, steps);
            && (w.stream.Some? ==> w.stream.value < |w.channels| && w.channels[w.stream.value].reading)
            && forall c :: 0 <= c < |w.channels| && w.channels[c].reading ==> w.stream == Some(c)
  {
    RunKeepsOneRead(Initial(conns), maxConns, steps);
  }

  /** The reader of a failed stream forgets that stream and no other, and touches nothing else. */
  lemma DeathForgetsOnlyItself(w: World, maxConns: int, c: nat)
    requires Enabled(w, StreamDies(c))
    ensures var w' := Next(w, maxConns, StreamDies(c));
            && (w.stream == Some(c) ==> w'.stream == None)
            && (w.stream != Some(c) ==> w'.stream == w.stream)
            && |w'.channels| == |w.channels| && !w'.channels[c].reading
            && (forall i :: 0 <= i < |w.channels| && i != c ==> w'.channels[i] == w.channels[i])
            && w'.sockets == w.sockets && w'.table == w.table && w'.delivered == w.delivered && w'.hand == w.hand
  {
  }

  /** Once dead, always dead. */
  lemma {:induction false} DeadStaysDead(w: World, maxConns: int, steps: seq<Step>, c: nat)
    requires OneIsRead(w) && Run(w, maxConns, steps) && IsChannel(w, c) && !w.channels[c].reading
    ensures After(w, maxConns, steps).stream != Some(c)
    decreases |steps|
  {
    if steps != [] {
      StepKeepsOneRead(w, maxConns, steps[0]);
      DeadStaysDead(Next(w, maxConns, steps[0]), maxConns, steps[1..], c);
    }
  }

  lemma {:induction false} StaysCurrentFrom(w: World, maxConns: int, steps: seq<Step>, c: nat)
    requires OneIsRead(w) && Run(w, maxConns, steps) && w.stream == Some(c)
    ensures After(w, maxConns, steps).stream == Some(c) <==> StreamDies(c) !in steps
    decreases |steps|
  {
    if steps != [] {
      var w' := Next(w, maxConns, steps[0]);
      StepKeepsOneRead(w, maxConns, steps[0]);
      assert steps == [steps[0]] + steps[1..];
      if steps[0] == StreamDies(c) {
        DeadStaysDead(w', maxConns, steps[1..], c);
      } else {
        StaysCurrentFrom(w', maxConns, steps[1..], c);
      }
    }
  }

  /** In every run a stream that has become the current one stays so exactly until it dies, and never
      comes back. */
  lemma StreamIsCurrentUntilItDies(conns: int, maxConns: int, before: seq<Step>, steps: seq<Step>, c: nat)
    requires Run(Initial(conns), maxConns, before)
    requires After(Initial(conns), maxConns, before).stream == Some(c)
    requires Run(After(Initial(conns), maxConns, before), maxConns, steps)
    ensures After(After(Initial(conns), maxConns, before), maxConns, steps).stream == Some(c)
       <==> StreamDies(c) !in steps
  {
    RunKeepsOneRead(Initial(conns), maxConns, before);
    StaysCurrentFrom(After(Initial(conns), maxConns, before), maxConns, steps, c);
  }

  /** In every run: a packet is bound to a stream that is alive at that moment. It is dropped exactly when
      none is alive and the client is offline, and a stream is opened exactly when none is alive and the
      client is online. */
  lemma PacketGoesToALiveStream(conns: int, maxConns: int, steps: seq<Step>, online: bool)
    requires Run(Initial(conns), maxConns, steps)
    requires Enabled(After(Initial(conns), maxConns, steps), Ensure(online))
    ensures var w := After(Initial(conns), maxConns, steps);
            var w' := Next(w, maxConns, Ensure(online));
            var alive := exists c :: 0 <= c < |w.channels| && w.channels[c].reading;
            && (w'.hand == Nothing <==> !alive && !online)
            && (w'.hand != Nothing ==>
                  && w'.hand.Bound? && w'.hand.request == w.hand.request
                  && w'.hand.chan < |w'.channels| && w'.channels[w'.hand.chan].reading)
            && w'.channels == w.channels + (if !alive && online then [NEW_CHANNEL] else [])
            && w'.sockets == w.sockets && w'.delivered == w.delivered
  {
    RunKeepsOneRead(Initial(conns), maxConns, steps);
    var w := After(Initial(conns), maxConns, steps);
    if w.stream.Some? {
      assert w.channels[w.stream.value].reading;
    }
    assert w.channels + [] == w.channels;
  }
}
