/** What one push does to a client (client/reverse.go apply, start) in whatever state it finds it, also
    while goroutines of earlier pushes are still starting: which rules are there once all starts have
    settled, and exactly when some bind meets one of the client's own sockets. */
module ReverseOverlap {
  import opened Reverse
  import opened Streams

  // ---- every rule that stays is served ----

  predicate Listening(s: State, r: ReverseRule) {
    if r.proto == "tcp" then r.id in s.tcp else r.id in s.udp
  }

  /** A rule to listen for has a listener in the map of its protocol, or a start still to come. */
  ghost predicate ServedRule(s: State, id: Id) {
    id in s.rules ==>
      && s.rules[id].id == id
      && (Startable(s.rules[id]) ==>
          Listening(s, s.rules[id]) || exists t :: t in s.starts && s.starts[t].rule == s.rules[id])
  }

  /** A socket not yet registered is on the port of its start's rule. */
  ghost predicate BoundRight(s: State) {
    forall t :: t in s.starts && s.starts[t].phase.Bound? ==> Fits(s.socks, s.starts[t].phase.handle, s.starts[t].rule)
  }

  lemma StopKeepsBoundRight(s: State, ids: set<Id>)
    requires BoundRight(s)
    ensures BoundRight(StopIds(s, ids))
  {
  }

  lemma RegisterKeepsBoundRight(s: State, d: map<Id, ReverseRule>)
    requires BoundRight(s) && Dated(s)
    ensures BoundRight(Register(s, d))
  {
  }

  lemma StepKeepsBoundRight(s: State, step: Step)
    requires BoundRight(s) && Dated(s) && Enabled(s, step)
    ensures BoundRight(Next(s, step))
  {
    match step
    case Push(push) =>
      StopKeepsBoundRight(s, Stale(s.rules, Desired(push)));
      RegisterKeepsBoundRight(StopIds(s, Stale(s.rules, Desired(push))), Desired(push));
    case StopAll => StopKeepsBoundRight(s, s.rules.Keys);
    case _ =>
  }

  ghost predicate Served(s: State) {
    Dated(s) && BoundRight(s) && forall id :: ServedRule(s, id)
  }

  lemma StopServes(s: State, ids: set<Id>, id: Id)
    requires ServedRule(s, id)
    ensures ServedRule(StopIds(s, ids), id)
  {
  }

  lemma RegisterServes(s: State, d: map<Id, ReverseRule>, id: Id)
    requires Dated(s) && ServedRule(s, id) && (id in d ==> d[id].id == id)
    ensures ServedRule(Register(s, d), id)
  {
    var s', t := Register(s, d), Ticket(s.round + 1, id);
    assert forall u :: u in s.starts ==> u in s'.starts && s'.starts[u] == s.starts[u];
    if id in d && id !in s.rules {
      assert t in s'.starts && s'.starts[t].rule == s'.rules[id];
    }
  }

  lemma StartServes(s: State, step: Step, id: Id)
    requires Enabled(s, step) && Starting(step) && ServedRule(s, id)
    ensures ServedRule(Next(s, step), id)
  {
    var s', t := Next(s, step), step.ticket;
    if id in s'.rules && Startable(s.rules[id]) && !Listening(s, s.rules[id]) {
      var u :| u in s.starts && s.starts[u].rule == s.rules[id];
      assert u != t || step.Bind? ==> u in s'.starts && s'.starts[u].rule == s'.rules[id];
    }
  }

  lemma StepServes(s: State, step: Step)
    requires Served(s) && Enabled(s, step)
    ensures Served(Next(s, step))
  {
    StepKeepsBoundRight(s, step);
    forall id ensures ServedRule(Next(s, step), id) {
      match step
      case Push(push) =>
        StopServes(s, Stale(s.rules, Desired(push)), id);
        RegisterServes(StopIds(s, Stale(s.rules, Desired(push))), Desired(push), id);
      case StopAll =>
      case _ => StartServes(s, step, id);
    }
  }

  /** In every run, of any shape. */
  lemma {:induction false} RunsServe(steps: seq<Step>)
    ensures Served(After(EMPTY, steps))
  {
    if steps != [] {
      var before, step := After(EMPTY, steps[..|steps| - 1]), steps[|steps| - 1];
      RunsServe(steps[..|steps| - 1]);
      if Enabled(before, step) {
        StepServes(before, step);
      }
    }
  }

  // ---- which rules are left ----

  /** A start pending in `s` whose bind has failed, or fails in `steps`. */
  predicate Fails(s: State, steps: seq<Step>, t: Ticket) {
    t in s.starts && (s.starts[t].phase.Failed? || BindFailed(steps, t))
  }

  ghost predicate SomeStartFails(s: State, steps: seq<Step>, id: Id) {
    exists t :: Fails(s, steps, t) && s.starts[t].rule.id == id
  }

  /** How a round of starts has left one goroutine. */
  ghost predicate Tracked(s: State, steps: seq<Step>, s': State, t: Ticket) {
    && (t in s'.starts ==> t in s.starts && s'.starts[t].rule == s.starts[t].rule
                           && (s'.starts[t].phase.Failed? <==> Fails(s, steps, t)))
    && (t !in s'.starts && Fails(s, steps, t) ==> s.starts[t].rule.id !in s'.rules)
  }

  lemma StepTracks(s: State, front: seq<Step>, steps: seq<Step>, before: State, step: Step, t: Ticket)
    requires Enabled(before, step) && Starting(step)
    requires Tracked(s, front, before, t) && Tracked(s, front, before, step.ticket)
    requires Fails(s, steps, t) <==> Fails(s, front, t) || (t in s.starts && step == Bind(t, false))
    ensures Tracked(s, steps, Next(before, step), t)
  {
  }

  lemma {:induction false} RoundTracks(s: State, steps: seq<Step>, t: Ticket)
    requires Round(s, steps)
    ensures Tracked(s, steps, After(s, steps), t)
  {
    if steps != [] {
      var front, step := steps[..|steps| - 1], steps[|steps| - 1];
      RoundFront(s, steps);
      RoundTracks(s, front, t);
      RoundTracks(s, front, step.ticket);
      StepTracks(s, front, steps, After(s, front), step, t);
    }
  }

  lemma {:induction false} RoundDropsFailed(s: State, steps: seq<Step>, id: Id)
    requires Round(s, steps)
    ensures var s' := After(s, steps);
            && (id in s'.rules ==> id in s.rules && s'.rules[id] == s.rules[id])
            && (id in s.rules && id !in s'.rules ==> SomeStartFails(s, steps, id))
  {
    if steps != [] {
      var front, step := steps[..|steps| - 1], steps[|steps| - 1];
      RoundFront(s, steps);
      RoundDropsFailed(s, front, id);
      RoundTracks(s, front, step.ticket);
      if SomeStartFails(s, front, id) {
        var t :| Fails(s, front, t) && s.starts[t].rule.id == id;
        assert Fails(s, steps, t);
      }
      assert Fails(s, front, step.ticket) ==> Fails(s, steps, step.ticket);
    }
  }

  /** Once all starts have settled, exactly the rules are gone for which some start has failed. */
  lemma SettledRules(s: State, steps: seq<Step>, id: Id)
    requires Round(s, steps) && Settled(After(s, steps))
    ensures id in After(s, steps).rules <==> id in s.rules && !SomeStartFails(s, steps, id)
  {
    RoundDropsFailed(s, steps, id);
    if SomeStartFails(s, steps, id) {
      var t :| Fails(s, steps, t) && s.starts[t].rule.id == id;
      RoundTracks(s, steps, t);
    }
  }

  lemma {:induction false} RoundServes(s: State, steps: seq<Step>)
    requires Served(s) && Round(s, steps)
    ensures Served(After(s, steps))
  {
    if steps != [] {
      RoundFront(s, steps);
      RoundServes(s, steps[..|steps| - 1]);
      StepServes(After(s, steps[..|steps| - 1]), steps[|steps| - 1]);
    }
  }

  /** What a push achieves in any reachable state, however many starts are still pending. Once all have
      settled, the client's rules agree with the push on id, protocol, port and target, except that exactly
      those are missing for whose id some start has failed, of this push or of an earlier one; and each
      rule to listen for has a listener in the map of its protocol. */
  lemma PushConverges(s: State, push: seq<ReverseRule>, steps: seq<Step>, id: Id)
    requires Served(s) && Round(Apply(s, push), steps) && Settled(After(Apply(s, push), steps))
    ensures var s1, d := Apply(s, push), Desired(push);
            var s' := After(s1, steps);
            && (id in s'.rules <==> id in d && !SomeStartFails(s1, steps, id))
            && (id in s'.rules ==>
                  var r := s'.rules[id];
                  && r.id == id && r.proto == d[id].proto && r.listen == d[id].listen && r.target == d[id].target
                  && (r.proto == "tcp" ==> id in s'.tcp) && (r.proto == "udp" ==> id in s'.udp))
  {
    var s1 := Apply(s, push);
    SettledRules(s1, steps, id);
    RoundDropsFailed(s1, steps, id);
    StepServes(s, Push(push));
    RoundServes(s1, steps);
    assert ServedRule(After(s1, steps), id);
  }

  // ---- on which port it listens ----

  function HandleOf(s: State, o: Owner): nat
    requires !o.Pending? && (if o.Tcp? then o.id in s.tcp else o.id in s.udp)
  {
    if o.Tcp? then s.tcp[o.id] else s.udp[o.id]
  }

  /** The goroutine that has registered last, in a round of starts, under the entry `o`. */
  ghost function LastFiled(s: State, steps: seq<Step>, o: Owner): (last: Option<Ticket>)
    requires Round(s, steps)
    ensures last.Some? ==> last.value in s.starts
  {
    if steps == [] then None
    else
      var front, step := steps[..|steps| - 1], steps[|steps| - 1];
      RoundFront(s, steps);
      RoundTracks(s, front, step.ticket);
      if Files(After(s, front), step, o) then Some(step.ticket) else LastFiled(s, front, o)
  }

  predicate Files(s: State, step: Step, o: Owner) {
    && step.Finish? && step.ticket in s.starts && s.starts[step.ticket].phase.Bound?
    && Entry(s.starts[step.ticket].rule) == o
  }

  predicate HasEntry(s: State, o: Owner) {
    match o
    case Tcp(id) => id in s.tcp
    case Udp(id) => id in s.udp
    case Pending(_) => false
  }

  /** What a round of starts has made of an entry: the socket of the last registration under it, which is
      on the port of that start's rule; or it is as before. */
  ghost predicate FiledLast(s: State, s': State, o: Owner, last: Option<Ticket>) {
    match last
    case None => (HasEntry(s', o) <==> HasEntry(s, o)) && (HasEntry(s, o) ==> HandleOf(s', o) == HandleOf(s, o))
    case Some(t) => t in s.starts && HasEntry(s', o) && Fits(s'.socks, HandleOf(s', o), s.starts[t].rule)
  }

  lemma StepFiles(s: State, before: State, step: Step, o: Owner, last: Option<Ticket>)
    requires Enabled(before, step) && Starting(step) && BoundRight(before) && FiledLast(s, before, o, last)
    requires step.ticket in s.starts && before.starts[step.ticket].rule == s.starts[step.ticket].rule
    ensures FiledLast(s, Next(before, step), o, if Files(before, step, o) then Some(step.ticket) else last)
  {
  }

  lemma {:induction false} RoundFiles(s: State, steps: seq<Step>, o: Owner)
    requires Round(s, steps) && BoundRight(s) && Dated(s)
    ensures var s' := After(s, steps);
            BoundRight(s') && Dated(s') && FiledLast(s, s', o, LastFiled(s, steps, o))
  {
    if steps != [] {
      var front, step := steps[..|steps| - 1], steps[|steps| - 1];
      RoundFront(s, steps);
      RoundFiles(s, front, o);
      RoundTracks(s, front, step.ticket);
      StepFiles(s, After(s, front), step, o, LastFiled(s, front, o));
      StepKeepsBoundRight(After(s, front), step);
    }
  }

  /** After a push, once all starts have settled, a rule to listen for has a listener in the map of its
      protocol; and that one is on the rule's port exactly if the last start to register there, of this
      push or of an earlier one, had a rule with that port, or, if none did, the listener was already there
      and on that port. */
  lemma PushListensOnPortIff(s: State, push: seq<ReverseRule>, steps: seq<Step>, id: Id)
    requires Served(s) && Apart(s) && Round(Apply(s, push), steps) && Settled(After(Apply(s, push), steps))
    requires id in After(Apply(s, push), steps).rules && Startable(After(Apply(s, push), steps).rules[id])
    ensures var s1 := Apply(s, push);
            var s' := After(s1, steps);
            var r, o := s'.rules[id], Entry(s'.rules[id]);
            && HasEntry(s', o)
            && (Fits(s'.socks, HandleOf(s', o), r)
                <==> match LastFiled(s1, steps, o)
                     case Some(t) => SamePort(s1.starts[t].rule, r)
                     case None => HasEntry(s1, o) && Fits(s1.socks, HandleOf(s1, o), r))
  {
    var s1 := Apply(s, push);
    var s' := After(s1, steps);
    var o := Entry(s'.rules[id]);
    PushConverges(s, push, steps, id);
    StepServes(s, Push(push));
    RoundServes(s1, steps);
    assert ServedRule(s', id);
    RoundFiles(s1, steps, o);
    if LastFiled(s1, steps, o).None? {
      StopKeepsApart(s, Stale(s.rules, Desired(push)));
      RegisterKeepsApart(StopIds(s, Stale(s.rules, Desired(push))), Desired(push));
      assert Owns(s1, o, HandleOf(s1, o));
      RoundOpens(s1, steps, HandleOf(s1, o));
    }
  }

  // ---- clashes with the client's own sockets ----

  predicate Waiting(s: State, t: Ticket) {
    t in s.starts && s.starts[t].phase.Binding? && Startable(s.starts[t].rule)
  }

  predicate SamePort(r: ReverseRule, q: ReverseRule) {
    r.proto == q.proto && r.listen == q.listen
  }

  /** A start waiting to bind a port that is taken, or that another one waits for. */
  ghost predicate Blocked(s: State, t: Ticket) {
    Waiting(s, t) &&
    (Occupied(s.socks, s.starts[t].rule.proto, s.starts[t].rule.listen)
     || exists u :: u != t && Waiting(s, u) && SamePort(s.starts[u].rule, s.starts[t].rule))
  }

  lemma StepWaits(s: State, step: Step, t: Ticket)
    requires Enabled(s, step) && Starting(step) && Waiting(Next(s, step), t)
    ensures Waiting(s, t) && Next(s, step).starts[t].rule == s.starts[t].rule
  {
  }

  lemma {:induction false} RoundWaits(s: State, steps: seq<Step>, t: Ticket)
    requires Round(s, steps) && Waiting(After(s, steps), t)
    ensures Waiting(s, t) && After(s, steps).starts[t].rule == s.starts[t].rule
  {
    if steps != [] {
      RoundFront(s, steps);
      StepWaits(After(s, steps[..|steps| - 1]), steps[|steps| - 1], t);
      RoundWaits(s, steps[..|steps| - 1], t);
    }
  }

  /** A socket opened in a round of starts was opened for one that waited for it. */
  ghost predicate OpenedFor(s: State, s': State, h: nat) {
    h < |s'.socks| && exists u :: OpenedBy(s, s', h, u)
  }

  predicate OpenedBy(s: State, s': State, h: nat, u: Ticket)
    requires h < |s'.socks|
  {
    && Waiting(s, u) && !Waiting(s', u)
    && s'.socks[h].proto == s.starts[u].rule.proto && s'.socks[h].port == s.starts[u].rule.listen
  }

  lemma StepOpens(s: State, before: State, step: Step, h: nat)
    requires Enabled(before, step) && Starting(step)
    requires Waiting(before, step.ticket) ==>
        Waiting(s, step.ticket) && before.starts[step.ticket].rule == s.starts[step.ticket].rule
    ensures |before.socks| <= |Next(before, step).socks|
    ensures h < |before.socks| ==> Next(before, step).socks[h] == before.socks[h]
    ensures OpenedFor(s, before, h) || |before.socks| <= h < |Next(before, step).socks| ==>
        OpenedFor(s, Next(before, step), h)
  {
    var after := Next(before, step);
    if OpenedFor(s, before, h) {
      var u :| OpenedBy(s, before, h, u);
      assert OpenedBy(s, after, h, u);
    } else if |before.socks| <= h < |after.socks| {
      assert OpenedBy(s, after, h, step.ticket);
    }
  }

  lemma {:induction false} RoundOpens(s: State, steps: seq<Step>, h: nat)
    requires Round(s, steps)
    ensures var s' := After(s, steps);
            && |s.socks| <= |s'.socks| && (h < |s.socks| ==> s'.socks[h] == s.socks[h])
            && (|s.socks| <= h < |s'.socks| ==> OpenedFor(s, s', h))
  {
    if steps != [] {
      var front, step := steps[..|steps| - 1], steps[|steps| - 1];
      RoundFront(s, steps);
      RoundOpens(s, front, h);
      if Waiting(After(s, front), step.ticket) {
        RoundWaits(s, front, step.ticket);
      }
      StepOpens(s, After(s, front), step, h);
    }
  }

  lemma BindMeetsNothing(s: State, steps: seq<Step>, t: Ticket)
    requires Round(s, steps) && Waiting(After(s, steps), t) && forall u :: !Blocked(s, u)
    ensures var s' := After(s, steps); !Occupied(s'.socks, s'.starts[t].rule.proto, s'.starts[t].rule.listen)
  {
    var s' := After(s, steps);
    RoundWaits(s, steps, t);
    assert !Blocked(s, t);
    forall h: nat | h < |s'.socks| && s'.socks[h].closed == 0
      ensures !(s'.socks[h].proto == s'.starts[t].rule.proto && s'.socks[h].port == s'.starts[t].rule.listen)
    {
      RoundOpens(s, steps, h);
      if OpenedFor(s, s', h) {
        var u :| OpenedBy(s, s', h, u);
      }
    }
  }

  lemma {:induction false} RoundIsQuiet(s: State, steps: seq<Step>)
    requires Round(s, steps) && forall t :: !Blocked(s, t)
    ensures After(s, steps).clashes == s.clashes
  {
    if steps != [] {
      var front, step := steps[..|steps| - 1], steps[|steps| - 1];
      RoundFront(s, steps);
      RoundIsQuiet(s, front);
      if step.Bind? {
        BindMeetsNothing(s, front, step.ticket);
      }
    }
  }

  ghost predicate QuietRound(s: State, steps: seq<Step>) {
    Round(s, steps) ==> After(s, steps).clashes == s.clashes
  }

  lemma BindMeets(s: State, front: seq<Step>, t: Ticket)
    requires Round(s, front) && Waiting(After(s, front), t) && After(s, front).clashes >= s.clashes
    requires var r := After(s, front).starts[t].rule; Occupied(After(s, front).socks, r.proto, r.listen)
    ensures !QuietRound(s, front + [Bind(t, true)])
  {
    RoundStep(s, front, Bind(t, true));
  }

  lemma BindOccupies(s: State, t: Ticket)
    requires Waiting(s, t)
    ensures var s', r := After(s, [] + [Bind(t, true)]), s.starts[t].rule;
            && Round(s, [] + [Bind(t, true)]) && Occupied(s'.socks, r.proto, r.listen) && s'.clashes >= s.clashes
            && forall u :: u in s.starts && u != t ==> u in s'.starts && s'.starts[u] == s.starts[u]
  {
    RoundStep(s, [], Bind(t, true));
    assert DoBind(s, t, true).socks[|s.socks|] == Sock(s.starts[t].rule.proto, s.starts[t].rule.listen, 0);
  }

  lemma BlockedClashes(s: State, t: Ticket) returns (steps: seq<Step>)
    requires Blocked(s, t)
    ensures !QuietRound(s, steps)
  {
    steps := [];
    if !Occupied(s.socks, s.starts[t].rule.proto, s.starts[t].rule.listen) {
      var u :| u != t && Waiting(s, u) && SamePort(s.starts[u].rule, s.starts[t].rule);
      BindOccupies(s, u);
      steps := [] + [Bind(u, true)];
    }
    BindMeets(s, steps, t);
    steps := steps + [Bind(t, true)];
  }

  /** From any state whatever, no order of the pending starts and no outcome of their binds makes one meet
      an own socket, exactly when none waits for a port that is taken or that another one waits for. */
  lemma RoundNeverClashesIff(s: State)
    ensures (forall steps :: QuietRound(s, steps)) <==> forall t :: !Blocked(s, t)
  {
    if t :| Blocked(s, t) {
      var steps := BlockedClashes(s, t);
    } else {
      forall steps ensures QuietRound(s, steps) {
        if Round(s, steps) {
          RoundIsQuiet(s, steps);
        }
      }
    }
  }

  // ---- the same before the push ----

  /** After the push `d`, goroutine `t` will have to bind rule `r`: it waits already, or it is started
      because the client has no agreeing rule. */
  predicate Bids(s: State, d: map<Id, ReverseRule>, t: Ticket, r: ReverseRule) {
    && Startable(r)
    && if t.round == s.round + 1 then t.id in d && !Kept(s, d, t.id) && r == d[t.id]
       else Waiting(s, t) && s.starts[t].rule == r
  }

  /** The sockets that a push closes. */
  function Closes(s: State, d: map<Id, ReverseRule>): set<nat> {
    HandlesOf(s.tcp, Stale(s.rules, d)) + HandlesOf(s.udp, Stale(s.rules, d))
  }

  /** An open socket on the rule's port that is not among those to be closed. */
  predicate StaysOn(socks: seq<Sock>, closes: set<nat>, h: nat, r: ReverseRule) {
    h < |socks| && socks[h].closed == 0 && socks[h].proto == r.proto && socks[h].port == r.listen && h !in closes
  }

  ghost predicate StaysTaken(s: State, d: map<Id, ReverseRule>, r: ReverseRule) {
    exists h: nat :: StaysOn(s.socks, Closes(s, d), h, r)
  }

  /** Two goroutines have to bind one port, or one has to bind a port that stays taken. */
  ghost predicate Dispute(s: State, d: map<Id, ReverseRule>, t: Ticket, r: ReverseRule) {
    && Bids(s, d, t, r)
    && (StaysTaken(s, d, r) || exists u, q :: u != t && Bids(s, d, u, q) && SamePort(q, r))
  }

  ghost predicate NoDispute(s: State, d: map<Id, ReverseRule>) {
    forall t, r :: !Dispute(s, d, t, r)
  }

  lemma RegisterLaunches(s: State, d: map<Id, ReverseRule>, t: Ticket)
    requires Dated(s)
    ensures var s1 := Register(s, d);
            if t.round == s.round + 1 then
              (t in s1.starts <==> t.id in d && t.id !in s.rules)
              && (t in s1.starts ==> s1.starts[t] == Start(d[t.id], Binding))
            else (t in s1.starts <==> t in s.starts) && (t in s1.starts ==> s1.starts[t] == s.starts[t])
  {
  }

  lemma BidsWait(s: State, push: seq<ReverseRule>, t: Ticket, r: ReverseRule)
    requires Dated(s)
    ensures var s1 := Apply(s, push);
            Bids(s, Desired(push), t, r) <==> Waiting(s1, t) && s1.starts[t].rule == r
  {
    var d := Desired(push);
    var stopped := StopIds(s, Stale(s.rules, d));
    RegisterLaunches(stopped, d, t);
    if t.id in d {
      KeptIff(s, d, t.id);
    }
    assert stopped.starts == s.starts && stopped.round == s.round;
    assert Apply(s, push) == Register(stopped, d);
  }

  lemma KeptIff(s: State, d: map<Id, ReverseRule>, id: Id)
    requires id in d
    ensures Kept(s, d, id) <==> id in StopIds(s, Stale(s.rules, d)).rules
  {
  }

  lemma OpenAfterClose(socks: seq<Sock>, handles: set<nat>, r: ReverseRule)
    ensures Occupied(Close(socks, handles), r.proto, r.listen) <==> exists h: nat :: StaysOn(socks, handles, h, r)
  {
    var after := Close(socks, handles);
    if h: nat :| StaysOn(socks, handles, h, r) {
      assert after[h] == socks[h];
    }
    if h: nat :| h < |after| && after[h].closed == 0 && after[h].proto == r.proto && after[h].port == r.listen {
      assert StaysOn(socks, handles, h, r);
    }
  }

  lemma HoldersOccupy(s: State, push: seq<ReverseRule>, r: ReverseRule)
    ensures Occupied(Apply(s, push).socks, r.proto, r.listen)
       <==> StaysTaken(s, Desired(push), r)
  {
    assert Apply(s, push).socks == Close(s.socks, Closes(s, Desired(push)));
    OpenAfterClose(s.socks, Closes(s, Desired(push)), r);
  }

  /** `s1` waits for what is bid, on the ports that are held. */
  ghost predicate Mirrors(s: State, d: map<Id, ReverseRule>, s1: State) {
    && (forall t, r :: Bids(s, d, t, r) <==> Waiting(s1, t) && s1.starts[t].rule == r)
    && (forall r: ReverseRule :: Occupied(s1.socks, r.proto, r.listen) <==> StaysTaken(s, d, r))
  }

  lemma BidsMirror(s: State, push: seq<ReverseRule>)
    requires Dated(s)
    ensures var s1 := Apply(s, push);
            forall t, r :: Bids(s, Desired(push), t, r) <==> Waiting(s1, t) && s1.starts[t].rule == r
  {
    forall t, r
      ensures Bids(s, Desired(push), t, r) <==> Waiting(Apply(s, push), t) && Apply(s, push).starts[t].rule == r
    {
      BidsWait(s, push, t, r);
    }
  }

  lemma HoldersMirror(s: State, push: seq<ReverseRule>)
    ensures var s1 := Apply(s, push);
            forall r: ReverseRule ::
              Occupied(s1.socks, r.proto, r.listen) <==> StaysTaken(s, Desired(push), r)
  {
    forall r: ReverseRule
      ensures Occupied(Apply(s, push).socks, r.proto, r.listen) <==> StaysTaken(s, Desired(push), r)
    {
      HoldersOccupy(s, push, r);
    }
  }

  lemma ApplyMirrors(s: State, push: seq<ReverseRule>)
    requires Dated(s)
    ensures Mirrors(s, Desired(push), Apply(s, push))
  {
    BidsMirror(s, push);
    HoldersMirror(s, push);
  }

  lemma DisputesBlock(s: State, d: map<Id, ReverseRule>, s1: State)
    requires Mirrors(s, d, s1)
    ensures (forall t :: !Blocked(s1, t)) <==> NoDispute(s, d)
  {
    if t :| Blocked(s1, t) {
      var r := s1.starts[t].rule;
      if !Occupied(s1.socks, r.proto, r.listen) {
        var u :| u != t && Waiting(s1, u) && SamePort(s1.starts[u].rule, r);
        assert Bids(s, d, u, s1.starts[u].rule);
      }
      assert Dispute(s, d, t, r);
    }
    if t, r :| Dispute(s, d, t, r) {
      if !Occupied(s1.socks, r.proto, r.listen) {
        var u, q :| u != t && Bids(s, d, u, q) && SamePort(q, r);
        assert Waiting(s1, u) && s1.starts[u].rule == q;
      }
      assert Blocked(s1, t);
    }
  }

  /** A push never makes the client bind a port that one of its own sockets holds, in any order of the
      starts, its own and those still pending, and for any outcome of binds, exactly when none of them
      has to bind a port that the push leaves taken or that another one has to bind. */
  lemma PushNeverClashesIff(s: State, push: seq<ReverseRule>)
    requires Dated(s)
    ensures (forall steps :: Quiet(s, push, steps)) <==> NoDispute(s, Desired(push))
  {
    ApplyMirrors(s, push);
    DisputesBlock(s, Desired(push), Apply(s, push));
    RoundNeverClashesIff(Apply(s, push));
    QuietMeansQuietRound(s, push);
  }

  lemma QuietMeansQuietRound(s: State, push: seq<ReverseRule>)
    ensures forall steps :: Quiet(s, push, steps) <==> QuietRound(Apply(s, push), steps)
  {
  }

  ghost predicate Quiet(s: State, push: seq<ReverseRule>, steps: seq<Step>) {
    Round(Apply(s, push), steps) ==> After(Apply(s, push), steps).clashes == s.clashes
  }

  // ---- when no start is pending ----

  /** Two rules of a push want one port, and `a` has to be started. */
  predicate Contest(s: State, d: map<Id, ReverseRule>, a: Id, b: Id) {
    a != b && a in d && b in d && !Kept(s, d, a) && Startable(d[a]) && SamePort(d[a], d[b])
  }

  ghost predicate NoContest(s: State, d: map<Id, ReverseRule>) {
    forall a, b :: !Contest(s, d, a, b)
  }

  /** A socket that a push leaves open serves a rule that is kept. */
  lemma HolderIsKept(s: State, d: map<Id, ReverseRule>, h: nat, r: ReverseRule) returns (id: Id)
    requires Inv(s) && Settled(s) && StaysOn(s.socks, Closes(s, d), h, r)
    ensures Kept(s, d, id) && SamePort(d[id], r)
  {
    var o :| Owns(s, o, h);
    id := o.id;
    assert Slot(s, id);
    StoppedHandles(s, Stale(s.rules, d), o, h);
  }

  lemma KeptRuleHolds(s: State, d: map<Id, ReverseRule>, id: Id)
    requires Inv(s) && Settled(s) && Kept(s, d, id) && Startable(d[id])
    ensures StaysTaken(s, d, d[id])
  {
    var o := if d[id].proto == "tcp" then Tcp(id) else Udp(id);
    assert Slot(s, id);
    var h := if o.Tcp? then s.tcp[id] else s.udp[id];
    assert Owns(s, o, h);
    StoppedHandles(s, Stale(s.rules, d), o, h);
    assert StaysOn(s.socks, Closes(s, d), h, d[id]);
  }

  lemma DisputeIsContest(s: State, d: map<Id, ReverseRule>, t: Ticket, r: ReverseRule)
    requires Inv(s) && Settled(s) && Dispute(s, d, t, r)
    ensures exists b :: Contest(s, d, t.id, b)
  {
    if h: nat :| StaysOn(s.socks, Closes(s, d), h, r) {
      var b := HolderIsKept(s, d, h, r);
      assert Contest(s, d, t.id, b);
    } else {
      var u, q :| u != t && Bids(s, d, u, q) && SamePort(q, r);
      assert Contest(s, d, t.id, u.id);
    }
  }

  lemma ContestIsDispute(s: State, d: map<Id, ReverseRule>, a: Id, b: Id)
    requires Inv(s) && Settled(s) && Contest(s, d, a, b)
    ensures Dispute(s, d, Ticket(s.round + 1, a), d[a])
  {
    if Kept(s, d, b) {
      KeptRuleHolds(s, d, b);
      var h: nat :| StaysOn(s.socks, Closes(s, d), h, d[b]);
      assert StaysOn(s.socks, Closes(s, d), h, d[a]);
    } else {
      assert Bids(s, d, Ticket(s.round + 1, b), d[b]);
    }
  }

  /** When no start is pending, a push never clashes exactly when no rule to be started shares its protocol
      and port with another rule of the push. Whatever held the ports before is then no obstacle, so
      ports may be swapped. */
  lemma SettledPushNeverClashesIff(s: State, push: seq<ReverseRule>)
    requires Inv(s) && Settled(s)
    ensures (forall steps :: Quiet(s, push, steps)) <==> NoContest(s, Desired(push))
  {
    var d := Desired(push);
    PushNeverClashesIff(s, push);
    if t, r :| Dispute(s, d, t, r) {
      DisputeIsContest(s, d, t, r);
    }
    if a, b :| Contest(s, d, a, b) {
      ContestIsDispute(s, d, a, b);
    }
  }

  /** So what a settled client may swap, a client with a start still pending may not: the same push,
      read before the start of the first rule has bound, may clash with it. */
  lemma PendingStartClashes(a: ReverseRule, b: ReverseRule)
    requires a.id != b.id && Startable(a) && SamePort(a, b)
    ensures !NoDispute(Apply(EMPTY, [a]), Desired([b]))
    ensures exists steps :: !Quiet(Apply(EMPTY, [a]), [b], steps)
  {
    var s := Apply(EMPTY, [a]);
    var t, u := Ticket(1, a.id), Ticket(2, b.id);
    PushOne(a);
    assert Dated(s);
    assert [b][0] == b;
    assert Bids(s, Desired([b]), t, a) && Bids(s, Desired([b]), u, b);
    assert Dispute(s, Desired([b]), t, a);
    PushNeverClashesIff(s, [b]);
  }
}
