/** Reverse listeners that nobody closes (client/reverse.go), in runs of any shape: pushes and the end
    of a session may meet any number of goroutines still starting. Which sockets nothing refers to any
    more, which entries have lost their rule, and exactly when the end of a session leaves nothing open. */
module ReverseLeaks {
  import opened Reverse

  // ---- sockets without an owner ----

  /** An open socket that nothing refers to any more. */
  ghost predicate Lost(s: State, h: nat) {
    h < |s.socks| && s.socks[h].closed == 0 && forall o :: !Owns(s, o, h)
  }

  /** A registration that replaces the entry holding `h`. */
  predicate Loses(s: State, step: Step, h: nat) {
    && step.Finish? && Enabled(s, step) && s.starts[step.ticket].phase.Bound?
    && Owns(s, Entry(s.starts[step.ticket].rule), h)
  }

  ghost predicate Consistent(s: State) {
    Apart(s) && Dated(s)
  }

  lemma StopLosesNothing(s: State, ids: set<Id>, h: nat)
    requires Consistent(s)
    ensures Consistent(StopIds(s, ids)) && (Lost(StopIds(s, ids), h) <==> Lost(s, h))
  {
    var s' := StopIds(s, ids);
    StopKeepsApart(s, ids);
    if h in HandlesOf(s.tcp, ids) + HandlesOf(s.udp, ids) {
      var o := StoppedHandleHasOwner(s, ids, h);
      assert s.socks[h].closed == 0;
    } else {
      forall o ensures Owns(s', o, h) <==> Owns(s, o, h) {
        if Owns(s, o, h) {
          StoppedHandles(s, ids, o, h);
        }
      }
    }
  }

  lemma RegisterLosesNothing(s: State, d: map<Id, ReverseRule>, h: nat)
    requires Consistent(s)
    ensures Consistent(Register(s, d)) && (Lost(Register(s, d), h) <==> Lost(s, h))
  {
    RegisterKeepsApart(s, d);
    forall o ensures Owns(Register(s, d), o, h) <==> Owns(s, o, h) {
      RegisterKeepsOwners(s, d, o, h);
    }
  }

  lemma BindLosesNothing(s: State, t: Ticket, ok: bool, h: nat)
    requires Consistent(s) && Enabled(s, Bind(t, ok))
    ensures Consistent(DoBind(s, t, ok)) && (Lost(DoBind(s, t, ok), h) <==> Lost(s, h))
  {
    BindKeepsApart(s, t, ok);
    forall o ensures Owns(DoBind(s, t, ok), o, h) <==> Owns(s, o, h) || (ok && o == Pending(t) && h == |s.socks|) {
      BindKeepsOwners(s, t, ok, o, h);
    }
    if ok && h == |s.socks| {
      assert Owns(DoBind(s, t, ok), Pending(t), h);
    }
  }

  lemma FinishOwner(s: State, t: Ticket, o: Owner, h: nat)
    requires Enabled(s, Finish(t))
    ensures Owns(DoFinish(s, t), o, h)
       <==> if o == Entry(s.starts[t].rule) && s.starts[t].phase.Bound? then Owns(s, Pending(t), h)
            else o != Pending(t) && Owns(s, o, h)
  {
  }

  lemma FinishLosesReplaced(s: State, t: Ticket, h: nat)
    requires Consistent(s) && Enabled(s, Finish(t))
    ensures Consistent(DoFinish(s, t)) && (Lost(DoFinish(s, t), h) <==> Lost(s, h) || Loses(s, Finish(t), h))
  {
    var s', moved := DoFinish(s, t), Entry(s.starts[t].rule);
    RegistrationKeepsApart(s, t);
    forall o
      ensures Owns(s', o, h)
         <==> if o == moved && s.starts[t].phase.Bound? then Owns(s, Pending(t), h)
              else o != Pending(t) && Owns(s, o, h)
    {
      FinishOwner(s, t, o, h);
    }
    if Owns(s, Pending(t), h) {
      assert Owns(s', moved, h);
    }
  }

  lemma StepLosesReplaced(s: State, step: Step, h: nat)
    requires Consistent(s) && Enabled(s, step)
    ensures Consistent(Next(s, step)) && (Lost(Next(s, step), h) <==> Lost(s, h) || Loses(s, step, h))
  {
    match step
    case Push(push) =>
      StopLosesNothing(s, Stale(s.rules, Desired(push)), h);
      RegisterLosesNothing(StopIds(s, Stale(s.rules, Desired(push))), Desired(push), h);
    case Bind(t, ok) => BindLosesNothing(s, t, ok, h);
    case Finish(t) => FinishLosesReplaced(s, t, h);
    case StopAll => StopLosesNothing(s, s.rules.Keys, h);
  }

  lemma ClosedAtMostOnce(s: State, step: Step, h: nat)
    requires Consistent(s) && Enabled(s, step) && h < |Next(s, step).socks|
    requires h < |s.socks| ==> s.socks[h].closed <= 1
    ensures Next(s, step).socks[h].closed <= 1
  {
    if step.Push? || step.StopAll? {
      var ids := if step.Push? then Stale(s.rules, Desired(step.push)) else s.rules.Keys;
      if h in HandlesOf(s.tcp, ids) + HandlesOf(s.udp, ids) {
        var o := StoppedHandleHasOwner(s, ids, h);
        assert s.socks[h].closed == 0;
      }
    }
  }

  /** What holds in runs of any shape: owners are apart, and no socket was closed twice. */
  ghost predicate Sound(s: State) {
    Consistent(s) && forall h: nat :: h < |s.socks| ==> s.socks[h].closed <= 1
  }

  /** The i-th step of the run replaces the entry that holds `h`. */
  ghost predicate LostAt(steps: seq<Step>, i: nat, h: nat) {
    i < |steps| && Loses(After(EMPTY, steps[..i]), steps[i], h)
  }

  /** In every run no socket is ever closed twice, and the open ones that nothing refers to are exactly
      those whose entry some late registration has replaced. */
  lemma {:induction false} SocketsAreLostIff(steps: seq<Step>, h: nat)
    ensures var s := After(EMPTY, steps);
            && Consistent(s) && (h < |s.socks| ==> s.socks[h].closed <= 1)
            && (Lost(s, h) <==> exists i: nat :: LostAt(steps, i, h))
  {
    if steps != [] {
      var front, step := steps[..|steps| - 1], steps[|steps| - 1];
      SocketsAreLostIff(front, h);
      var before := After(EMPTY, front);
      if Enabled(before, step) {
        StepLosesReplaced(before, step, h);
        if h < |Next(before, step).socks| {
          ClosedAtMostOnce(before, step, h);
        }
      }
      LostSomewhere(steps, h);
    }
  }

  lemma LostSomewhere(steps: seq<Step>, h: nat)
    requires steps != []
    ensures var front, step := steps[..|steps| - 1], steps[|steps| - 1];
            (exists i: nat :: LostAt(steps, i, h))
            <==> (exists i: nat :: LostAt(front, i, h)) || Loses(After(EMPTY, front), step, h)
  {
    var front := steps[..|steps| - 1];
    assert steps[..|front|] == front;
    if i: nat :| LostAt(steps, i, h) {
      if i < |front| {
        SameAt(steps, i);
        assert LostAt(front, i, h);
      }
    }
    if i: nat :| LostAt(front, i, h) {
      SameAt(steps, i);
      assert LostAt(steps, i, h);
    }
    if Loses(After(EMPTY, front), steps[|front|], h) {
      assert LostAt(steps, |front|, h);
    }
  }

  lemma SameAt(steps: seq<Step>, i: nat)
    requires i < |steps| - 1
    ensures var front := steps[..|steps| - 1];
            front[..i] == steps[..i] && front[i] == steps[i]
  {
  }

  lemma RunsAreSound(steps: seq<Step>)
    ensures Sound(After(EMPTY, steps))
  {
    SocketsAreLostIff(steps, 0);
    forall h: nat | h < |After(EMPTY, steps).socks| ensures After(EMPTY, steps).socks[h].closed <= 1 {
      SocketsAreLostIff(steps, h);
    }
  }

  // ---- entries without a rule ----

  /** A listener filed under an id that has no rule: neither a push nor stopAll stops it. */
  predicate Stranded(s: State, id: Id) {
    (id in s.tcp || id in s.udp) && id !in s.rules
  }

  /** A registration whose rule is gone, or a failed start that takes the rule of a listener with it. */
  predicate Strands(s: State, step: Step, id: Id) {
    && step.Finish? && Enabled(s, step) && s.starts[step.ticket].rule.id == id
    && match s.starts[step.ticket].phase
       case Binding => false
       case Bound(_) => id !in s.rules
       case Failed => id in s.tcp || id in s.udp
  }

  /** A push with a rule of that id, which the entry then counts for. */
  predicate Adopts(step: Step, id: Id) {
    step.Push? && exists r :: r in step.push && r.id == id
  }

  ghost predicate Adopted(steps: seq<Step>, from: nat, id: Id) {
    exists k :: from <= k < |steps| && Adopts(steps[k], id)
  }

  lemma AdoptedLater(steps: seq<Step>, from: nat, id: Id)
    requires from < |steps|
    ensures Adopted(steps, from, id)
       <==> Adopted(steps[..|steps| - 1], from, id) || Adopts(steps[|steps| - 1], id)
  {
    var front := steps[..|steps| - 1];
    if k :| from <= k < |steps| && Adopts(steps[k], id) {
      if k < |front| {
        assert front[k] == steps[k];
      }
    }
    if k :| from <= k < |front| && Adopts(front[k], id) {
      assert steps[k] == front[k];
    }
  }

  lemma StepStrandsIff(s: State, step: Step, id: Id)
    requires Enabled(s, step)
    ensures Stranded(Next(s, step), id) <==> (Stranded(s, id) && !Adopts(step, id)) || Strands(s, step, id)
  {
  }

  ghost predicate StrandsAt(steps: seq<Step>, i: nat, id: Id) {
    i < |steps| && Strands(After(EMPTY, steps[..i]), steps[i], id)
  }

  /** The i-th step leaves the entry of `id` without a rule, and no later push brings one. */
  ghost predicate StrandedAt(steps: seq<Step>, i: nat, id: Id) {
    StrandsAt(steps, i, id) && !Adopted(steps, i + 1, id)
  }

  lemma StrandedEarlier(steps: seq<Step>, i: nat, id: Id)
    requires i < |steps| - 1
    ensures StrandedAt(steps, i, id)
       <==> StrandedAt(steps[..|steps| - 1], i, id) && !Adopts(steps[|steps| - 1], id)
  {
    SameAt(steps, i);
    AdoptedLater(steps, i + 1, id);
    assert StrandsAt(steps, i, id) <==> StrandsAt(steps[..|steps| - 1], i, id);
  }

  lemma StrandedLast(steps: seq<Step>, id: Id)
    requires steps != []
    ensures StrandedAt(steps, |steps| - 1, id)
       <==> Strands(After(EMPTY, steps[..|steps| - 1]), steps[|steps| - 1], id)
  {
  }

  lemma StrandedSomewhere(steps: seq<Step>, id: Id)
    requires steps != []
    ensures var front, step := steps[..|steps| - 1], steps[|steps| - 1];
            (exists i: nat :: StrandedAt(steps, i, id))
            <==> ((exists i: nat :: StrandedAt(front, i, id)) && !Adopts(step, id))
                 || Strands(After(EMPTY, front), step, id)
  {
    var front := steps[..|steps| - 1];
    StrandedLast(steps, id);
    if i: nat :| StrandedAt(steps, i, id) && i < |front| {
      StrandedEarlier(steps, i, id);
    }
    if i: nat :| StrandedAt(front, i, id) {
      StrandedEarlier(steps, i, id);
    }
  }

  /** In every run an entry has no rule exactly when some step took it away, or filed the entry when it
      was gone already, and no later push brought one. */
  lemma {:induction false} EntriesAreStrandedIff(steps: seq<Step>, id: Id)
    ensures Stranded(After(EMPTY, steps), id) <==> exists i: nat :: StrandedAt(steps, i, id)
  {
    if steps != [] {
      var front, step := steps[..|steps| - 1], steps[|steps| - 1];
      var before := After(EMPTY, front);
      EntriesAreStrandedIff(front, id);
      StrandedSomewhere(steps, id);
      if Enabled(before, step) {
        StepStrandsIff(before, step, id);
      }
    }
  }

  // ---- the end of the session ----

  ghost predicate AllClosed(s: State) {
    forall h: nat :: h < |s.socks| ==> s.socks[h].closed == 1
  }

  predicate NoneUnregistered(s: State) {
    forall t :: t in s.starts ==> !s.starts[t].phase.Bound?
  }

  ghost predicate NoneLost(s: State) {
    forall h: nat :: !Lost(s, h)
  }

  ghost predicate NoneStranded(s: State) {
    forall id :: !Stranded(s, id)
  }

  /** What stopAll does not reach: a bound start, an entry without a rule, a lost socket. */
  ghost predicate OutOfReach(s: State, h: nat) {
    || Lost(s, h)
    || (exists t :: Owns(s, Pending(t), h))
    || (exists id :: Stranded(s, id) && (Owns(s, Tcp(id), h) || Owns(s, Udp(id), h)))
  }

  /** stopAll, in whatever state it finds the manager: afterwards no socket is open except exactly those
      out of its reach, and every other one has been closed exactly once. */
  lemma StopAllReaches(s: State, h: nat)
    requires Sound(s) && h < |s.socks|
    ensures var s' := Next(s, StopAll);
            s'.socks[h].closed == if OutOfReach(s, h) then 0 else 1
  {
    var s' := Next(s, StopAll);
    StopLosesNothing(s, s.rules.Keys, h);
    ClosedAtMostOnce(s, StopAll, h);
    if o :| Owns(s, o, h) && (o.Pending? || o.id !in s.rules) {
      StoppedHandles(s, s.rules.Keys, o, h);
    }
    if o :| Owns(s', o, h) {
      StoppedHandles(s, s.rules.Keys, o, h);
    }
  }

  /** stopAll empties the maps exactly when no entry has lost its rule, and has then closed every socket,
      exactly once, if and only if also none is lost and no goroutine holds one it has yet to register. */
  lemma StopAllEmptiesAndClosesIff(s: State)
    requires Sound(s)
    ensures var s' := Next(s, StopAll);
            && s'.rules == map[] && (s'.tcp == map[] && s'.udp == map[] <==> NoneStranded(s))
            && (AllClosed(s') <==> NoneUnregistered(s) && NoneStranded(s) && NoneLost(s))
  {
    if NoneStranded(s) {
      StopAllEmpties(s);
    } else {
      var id :| Stranded(s, id);
      assert id in Next(s, StopAll).tcp || id in Next(s, StopAll).udp;
    }
    StopAllReachesAllIff(s);
    NothingOutOfReachIff(s);
  }

  lemma StopAllReachesAllIff(s: State)
    requires Sound(s)
    ensures AllClosed(Next(s, StopAll)) <==> forall h: nat :: h < |s.socks| ==> !OutOfReach(s, h)
  {
    forall h: nat | h < |s.socks| ensures Next(s, StopAll).socks[h].closed == if OutOfReach(s, h) then 0 else 1 {
      StopAllReaches(s, h);
    }
  }

  lemma NothingOutOfReachIff(s: State)
    requires Sound(s)
    ensures (forall h: nat :: h < |s.socks| ==> !OutOfReach(s, h))
       <==> NoneUnregistered(s) && NoneStranded(s) && NoneLost(s)
  {
    if t :| t in s.starts && s.starts[t].phase.Bound? {
      assert Owns(s, Pending(t), s.starts[t].phase.handle);
      assert OutOfReach(s, s.starts[t].phase.handle);
    }
    if id :| Stranded(s, id) {
      var o, h := if id in s.tcp then Tcp(id) else Udp(id), if id in s.tcp then s.tcp[id] else s.udp[id];
      assert Owns(s, o, h);
      assert OutOfReach(s, h);
    }
    if h: nat :| Lost(s, h) {
      assert OutOfReach(s, h);
    }
    if h: nat :| h < |s.socks| && OutOfReach(s, h) && !Lost(s, h) {
      if t :| Owns(s, Pending(t), h) {
        assert !NoneUnregistered(s);
      }
    }
  }

  lemma StopAllEmpties(s: State)
    requires NoneStranded(s)
    ensures Next(s, StopAll).tcp == map[] && Next(s, StopAll).udp == map[]
  {
    assert forall id :: id in s.tcp || id in s.udp ==> !Stranded(s, id);
  }

  /** A start that will not open a socket any more: its bind failed, or its protocol is neither. */
  predicate Barren(start: Start) {
    start.phase.Failed? || (start.phase.Binding? && !Startable(start.rule))
  }

  predicate AllBarren(s: State) {
    forall t :: t in s.starts ==> Barren(s.starts[t])
  }

  /** After the session has ended, the goroutines still starting go on as `steps`. */
  ghost predicate EndsClean(s: State, steps: seq<Step>) {
    Round(Next(s, StopAll), steps) ==> AllClosed(After(Next(s, StopAll), steps))
  }

  lemma {:induction false} BarrenStartsOpenNothing(s: State, steps: seq<Step>)
    requires AllBarren(s) && AllClosed(s) && Round(s, steps)
    ensures AllBarren(After(s, steps)) && AllClosed(After(s, steps))
  {
    if steps != [] {
      RoundFront(s, steps);
      BarrenStartsOpenNothing(s, steps[..|steps| - 1]);
    }
  }

  /** The session's end leaves every socket closed, exactly once, whatever the goroutines still starting
      do afterwards, if and only if each of them has already failed to bind (or has nothing to bind), every
      entry has its rule, and no socket is lost. */
  lemma SessionEndsCleanIff(s: State)
    requires Sound(s)
    ensures (forall steps :: EndsClean(s, steps)) <==> AllBarren(s) && NoneStranded(s) && NoneLost(s)
  {
    var s' := Next(s, StopAll);
    StopAllEmptiesAndClosesIff(s);
    if AllBarren(s) && NoneStranded(s) && NoneLost(s) {
      forall steps ensures EndsClean(s, steps) {
        if Round(s', steps) {
          BarrenStartsOpenNothing(s', steps);
        }
      }
    } else if t :| t in s.starts && !Barren(s.starts[t]) {
      LateSocketIsOpen(s, t);
      assert !EndsClean(s, Begun(s, t));
    } else {
      assert !EndsClean(s, []);
    }
  }

  /** The same in terms of what happened during the session: no start that may still bind, every
      listener that lost its rule got one again from a later push, and no registration replaced an entry. */
  lemma RunEndsCleanIff(steps: seq<Step>)
    ensures (forall more :: EndsClean(After(EMPTY, steps), more))
       <==> && AllBarren(After(EMPTY, steps))
            && (forall i: nat, id :: !StrandedAt(steps, i, id))
            && (forall i: nat, h: nat :: !LostAt(steps, i, h))
  {
    RunsAreSound(steps);
    SessionEndsCleanIff(After(EMPTY, steps));
    NoneStrandedIff(steps);
    NoneLostIff(steps);
  }

  lemma NoneStrandedIff(steps: seq<Step>)
    ensures NoneStranded(After(EMPTY, steps)) <==> forall i: nat, id :: !StrandedAt(steps, i, id)
  {
    if id :| Stranded(After(EMPTY, steps), id) {
      EntriesAreStrandedIff(steps, id);
    }
    if i: nat, id :| StrandedAt(steps, i, id) {
      EntriesAreStrandedIff(steps, id);
    }
  }

  lemma NoneLostIff(steps: seq<Step>)
    ensures NoneLost(After(EMPTY, steps)) <==> forall i: nat, h: nat :: !LostAt(steps, i, h)
  {
    if h: nat :| Lost(After(EMPTY, steps), h) {
      SocketsAreLostIff(steps, h);
    }
    if i: nat, h: nat :| LostAt(steps, i, h) {
      SocketsAreLostIff(steps, h);
    }
  }

  // ---- starts that complete too late ----

  /** The bind of a start that has not bound yet. */
  function Begun(s: State, t: Ticket): seq<Step>
    requires t in s.starts
  {
    if s.starts[t].phase.Bound? then [] else [Bind(t, true)]
  }

  lemma LateSocketIsOpen(s: State, t: Ticket)
    requires Sound(s) && t in s.starts && !Barren(s.starts[t])
    ensures var s' := After(Next(s, StopAll), Begun(s, t));
            && Round(Next(s, StopAll), Begun(s, t)) && t in s'.starts && s'.starts[t].phase.Bound?
            && s'.starts[t].rule == s.starts[t].rule && s'.rules == map[]
            && s'.starts[t].phase.handle < |s'.socks| && s'.socks[s'.starts[t].phase.handle].closed == 0
  {
    if s.starts[t].phase.Bound? {
      assert Owns(s, Pending(t), s.starts[t].phase.handle);
      StopAllReaches(s, s.starts[t].phase.handle);
    } else {
      OneStep(Next(s, StopAll), Bind(t, true));
    }
  }

  lemma OneStep(s: State, step: Step)
    requires Enabled(s, step) && Starting(step)
    ensures Round(s, [step]) && After(s, [step]) == Next(s, step)
  {
    RoundStep(s, [], step);
    assert [] + [step] == [step];
  }

  /** A start that completes after the session has ended, bound before or not, registers a listener
      for which there is no rule, and no later stopAll closes it. */
  lemma LateStartIsNeverStopped(s: State, t: Ticket)
    requires Sound(s) && t in s.starts && !Barren(s.starts[t])
    ensures var steps := Begun(s, t) + [Finish(t)];
            var late := After(Next(s, StopAll), steps);
            && Round(Next(s, StopAll), steps) && Stranded(late, s.starts[t].rule.id) && !AllClosed(late)
            && late.rules == map[] && Next(late, StopAll) == late
  {
    var s' := After(Next(s, StopAll), Begun(s, t));
    LateSocketIsOpen(s, t);
    RoundStep(Next(s, StopAll), Begun(s, t), Finish(t));
    assert DoFinish(s', t).rules.Keys == {};
    StopNone(DoFinish(s', t));
  }

  lemma OneMoreStep(s: State, steps: seq<Step>, step: Step)
    requires Enabled(After(s, steps), step)
    ensures After(s, steps + [step]) == Next(After(s, steps), step)
  {
    assert (steps + [step])[..|steps|] == steps;
  }

  lemma NothingMore<K, V>(m: map<K, V>, none: map<K, V>)
    requires none.Keys == {}
    ensures none == map[] && m + none == m
  {
  }

  lemma RegisterNone(s: State)
    ensures Register(s, map[]) == s.(round := s.round + 1)
  {
    var none := Missing(map[], s.rules);
    NothingMore(s.rules, none);
    NothingMore(s.starts, Launched(none, s.round + 1));
  }

  lemma StopOnly(s: State, id: Id)
    requires s.rules.Keys == {id} && s.tcp == map[] && s.udp == map[]
    ensures StopIds(s, {id}) == s.(rules := map[])
  {
    assert s.rules - {id} == map[] && s.tcp - {id} == map[] && s.udp - {id} == map[];
    assert HandlesOf(s.tcp, {id}) + HandlesOf(s.udp, {id}) == {};
    assert Close(s.socks, {}) == s.socks;
  }

  lemma PushNothing(s: State, id: Id)
    requires s.rules.Keys == {id} && s.tcp == map[] && s.udp == map[]
    ensures Apply(s, []) == s.(rules := map[], round := s.round + 1)
  {
    assert Stale(s.rules, Desired([])) == {id};
    StopOnly(s, id);
    RegisterNone(StopIds(s, {id}));
  }

  /** A rule that is pushed and taken back before its start has bound: the start then files its listener
      without a rule. No start is pending any more and no socket is lost, but stopAll closes nothing. */
  lemma OvertakenStartIsStranded(r: ReverseRule)
    requires Startable(r)
    ensures var t := Ticket(1, r.id);
            var s := After(EMPTY, [Push([r])] + [Push([])] + [Bind(t, true)] + [Finish(t)]);
            && Settled(s) && NoneLost(s) && s.rules == map[] && Stranded(s, r.id)
            && Next(s, StopAll) == s && !AllClosed(s)
  {
    var t := Ticket(1, r.id);
    PushOne(r);
    OneMoreStep(EMPTY, [], Push([r]));
    assert [] + [Push([r])] == [Push([r])];
    OneMoreStep(EMPTY, [Push([r])], Push([]));
    PushNothing(Apply(EMPTY, [r]), r.id);
    OneMoreStep(EMPTY, [Push([r])] + [Push([])], Bind(t, true));
    OneMoreStep(EMPTY, [Push([r])] + [Push([])] + [Bind(t, true)], Finish(t));
    RegisteredAlone(After(EMPTY, [Push([r])] + [Push([])]), r);
  }

  lemma RegisteredAlone(s: State, r: ReverseRule)
    requires s == State(map[], map[], map[], map[Ticket(1, r.id) := Start(r, Binding)], 2, [], 0) && Startable(r)
    ensures var s' := DoFinish(DoBind(s, Ticket(1, r.id), true), Ticket(1, r.id));
            && Settled(s') && NoneLost(s') && s'.rules == map[] && Stranded(s', r.id)
            && Next(s', StopAll) == s' && !AllClosed(s')
  {
    var s' := DoFinish(DoBind(s, Ticket(1, r.id), true), Ticket(1, r.id));
    assert s'.socks == [Sock(r.proto, r.listen, 0)] && s'.starts.Keys == {};
    assert Owns(s', Entry(r), 0);
    StopNone(s');
  }
}
