/** The reverse manager object (client/reverse.go): its methods update three maps under one mutex.
    Each is proved against its function in Reverse; the goroutines still starting, the sockets and the
    round are ghost. */
module ReverseMgr {
  import opened Reverse
  import Maps

  class ReverseMgr {
    var rules: map<Id, ReverseRule>
    var tcpLns: map<Id, nat>
    var udpConns: map<Id, nat>
    ghost var starts: map<Ticket, Start>
    ghost var round: nat
    ghost var socks: seq<Sock>
    ghost var clashes: nat
    /** The operating system's next socket. */
    var handles: nat

    ghost function View(): State
      reads this
    {
      State(rules, tcpLns, udpConns, starts, round, socks, clashes)
    }

    ghost predicate Valid()
      reads this
    {
      Apart(View()) && Dated(View()) && handles == |socks|
    }

    constructor ()
      ensures Valid() && View() == EMPTY
    {
      rules, tcpLns, udpConns := map[], map[], map[];
      starts, round, socks, clashes, handles := map[], 0, [], 0, 0;
    }

    method StopLocked(id: Id)
      requires Valid()
      modifies `rules, `tcpLns, `udpConns, `socks
      ensures Valid() && View() == StopIds(old(View()), {id})
    {
      ghost var before := View();
      StopKeepsApart(before, {id});
      StopOne(before, id);
      if id in tcpLns {
        socks := ClosedAt(socks, tcpLns[id]);
        tcpLns := tcpLns - {id};
      }
      if id in udpConns {
        socks := ClosedAt(socks, udpConns[id]);
        udpConns := udpConns - {id};
      }
      rules := rules - {id};
      assert View() == StopIds(before, {id});
    }

    /** Diffs the listeners against a push: everything stale is stopped before anything is registered.
        A goroutine is launched for each rule of `toStart`. */
    method Apply(push: seq<ReverseRule>) returns (toStart: map<Id, ReverseRule>)
      requires Valid()
      modifies this
      ensures Valid() && View() == Reverse.Apply(old(View()), push)
      ensures starts == old(starts) + Launched(toStart, round)
    {
      var desired := DesiredRules(push);
      StopStale(desired);
      toStart := StartMissing(desired);
    }

    method StartMissing(desired: map<Id, ReverseRule>) returns (toStart: map<Id, ReverseRule>)
      requires Valid()
      modifies `rules, `starts, `round
      ensures Valid() && View() == Register(old(View()), desired)
      ensures toStart == Missing(desired, old(rules))
    {
      ghost var after := Register(View(), desired);
      RegisterKeepsApart(View(), desired);
      toStart := RegisterNew(desired);
      starts, round := after.starts, after.round;
    }

    method DesiredRules(push: seq<ReverseRule>) returns (desired: map<Id, ReverseRule>)
      ensures desired == Desired(push)
    {
      desired := map[];
      for i := 0 to |push|
        invariant desired == Desired(push[..i])
      {
        assert push[..i + 1][..i] == push[..i];
        desired := desired[push[i].id := push[i]];
      }
      assert push[..|push|] == push;
    }

    static predicate IsStale(cur: ReverseRule, desired: map<Id, ReverseRule>, id: Id) {
      id !in desired || desired[id].proto != cur.proto || desired[id].listen != cur.listen
      || desired[id].target != cur.target
    }

    method StopStale(desired: map<Id, ReverseRule>)
      requires Valid()
      modifies `rules, `tcpLns, `udpConns, `socks
      ensures Valid() && View() == StopIds(old(View()), Stale(old(rules), desired))
    {
      var todo := rules.Keys;
      ghost var done: set<Id> := {};
      StopNone(View());
      while todo != {}
        invariant Valid() && done + todo == old(rules).Keys && done !! todo
        invariant View() == StopIds(old(View()), Stale(old(rules), desired) * done)
      {
        var id := Maps.AnyOf(todo);
        todo := todo - {id};
        ghost var stopped := Stale(old(rules), desired) * done;
        done := done + {id};
        if IsStale(rules[id], desired, id) {
          StopLocked(id);
          StopOneMore(old(View()), stopped, id);
          assert Stale(old(rules), desired) * done == stopped + {id};
        } else {
          assert Stale(old(rules), desired) * done == stopped;
        }
      }
      assert Stale(old(rules), desired) * done == Stale(old(rules), desired);
    }

    method RegisterNew(desired: map<Id, ReverseRule>) returns (toStart: map<Id, ReverseRule>)
      modifies `rules
      ensures toStart == Missing(desired, old(rules))
      ensures rules == old(rules) + toStart
    {
      var todo := desired.Keys;
      toStart := map[];
      ghost var done: set<Id> := {};
      while todo != {}
        invariant done + todo == desired.Keys && done !! todo
        invariant toStart == map id | id in done - old(rules).Keys :: desired[id]
        invariant rules == old(rules) + toStart
      {
        var id := Maps.AnyOf(todo);
        todo := todo - {id};
        if id !in rules {
          rules := rules[id := desired[id]];
          toStart := toStart[id := desired[id]];
        }
        done := done + {id};
      }
      assert done == desired.Keys;
      assert toStart == Missing(desired, old(rules));
    }

    method StopAll()
      requires Valid()
      modifies `rules, `tcpLns, `udpConns, `socks
      ensures Valid() && View() == Next(old(View()), Reverse.StopAll)
    {
      var todo := rules.Keys;
      ghost var done: set<Id> := {};
      StopNone(View());
      while todo != {}
        invariant Valid() && done + todo == old(rules).Keys && done !! todo
        invariant View() == StopIds(old(View()), done)
      {
        var id := Maps.AnyOf(todo);
        todo := todo - {id};
        StopLocked(id);
        StopOneMore(old(View()), done, id);
        done := done + {id};
      }
    }

    /** A start's Listen, outside the mutex. */
    method Listen(r: ReverseRule, ok: bool, ghost t: Ticket) returns (handle: nat)
      requires Valid() && Enabled(View(), Bind(t, ok)) && starts[t].rule == r
      modifies `starts, `socks, `clashes, `handles
      ensures Valid() && View() == Next(old(View()), Bind(t, ok))
      ensures starts[t] == Start(r, if ok then Bound(handle) else Failed)
    {
      BindKeepsApart(View(), t, ok);
      ghost var after := DoBind(View(), t, ok);
      handle := handles;
      handles := if ok then handles + 1 else handles;
      starts, socks, clashes := after.starts, after.socks, after.clashes;
    }

    /** The critical section of a start whose Listen has returned: `handle` is the socket, if it worked. */
    method Finish(r: ReverseRule, ok: bool, handle: nat, ghost t: Ticket)
      requires Valid() && t in starts && starts[t] == Start(r, if ok then Bound(handle) else Failed)
      modifies `rules, `tcpLns, `udpConns, `starts
      ensures Valid() && View() == Next(old(View()), Reverse.Finish(t))
    {
      RegistrationKeepsApart(View(), t);
      if !ok {
        rules := rules - {r.id};
      } else if r.proto == "tcp" {
        tcpLns := tcpLns[r.id := handle];
      } else {
        udpConns := udpConns[r.id := handle];
      }
      starts := starts - {t};
    }
  }

  ghost function ClosedAt(socks: seq<Sock>, h: nat): seq<Sock> {
    if h < |socks| then socks[h := socks[h].(closed := socks[h].closed + 1)] else socks
  }

  lemma StopOne(s: State, id: Id)
    requires Apart(s)
    ensures var once := if id in s.tcp then ClosedAt(s.socks, s.tcp[id]) else s.socks;
            var twice := if id in s.udp then ClosedAt(once, s.udp[id]) else once;
            StopIds(s, {id}) == s.(rules := s.rules - {id}, tcp := s.tcp - {id}, udp := s.udp - {id}, socks := twice)
  {
    assert id in s.tcp ==> Owns(s, Tcp(id), s.tcp[id]);
    assert id in s.udp ==> Owns(s, Udp(id), s.udp[id]);
    CloseOne(s.tcp, id, s.socks);
    CloseOne(s.udp, id, Close(s.socks, HandlesOf(s.tcp, {id})));
    CloseTwice(s.socks, HandlesOf(s.tcp, {id}), HandlesOf(s.udp, {id}));
  }

  lemma CloseOne(m: map<Id, nat>, id: Id, socks: seq<Sock>)
    requires id in m ==> m[id] < |socks|
    ensures Close(socks, HandlesOf(m, {id})) == if id in m then ClosedAt(socks, m[id]) else socks
    ensures HandlesOf(m, {id}) == if id in m then {m[id]} else {}
  {
    assert HandlesOf(m, {id}) == if id in m then {m[id]} else {};
  }

  lemma CloseTwice(socks: seq<Sock>, some: set<nat>, one: set<nat>)
    requires some !! one
    ensures Close(Close(socks, some), one) == Close(socks, some + one)
  {
  }

  lemma HandlesOneMore(m: map<Id, nat>, ids: set<Id>, id: Id)
    requires id !in ids
    ensures HandlesOf(m, ids + {id}) == HandlesOf(m, ids) + HandlesOf(m - ids, {id})
  {
  }

  /** Stopping one more id after some others. */
  lemma StopOneMore(s: State, ids: set<Id>, id: Id)
    requires Apart(s) && id !in ids
    ensures StopIds(StopIds(s, ids), {id}) == StopIds(s, ids + {id})
  {
    Maps.RemoveOneMore(s.rules, ids, id);
    Maps.RemoveOneMore(s.tcp, ids, id);
    Maps.RemoveOneMore(s.udp, ids, id);
    HandlesOneMore(s.tcp, ids, id);
    HandlesOneMore(s.udp, ids, id);
    var some := HandlesOf(s.tcp, ids) + HandlesOf(s.udp, ids);
    var one := HandlesOf(s.tcp - ids, {id}) + HandlesOf(s.udp - ids, {id});
    NotYetStopped(s, ids, id);
    CloseTwice(s.socks, some, one);
    assert HandlesOf(s.tcp, ids + {id}) + HandlesOf(s.udp, ids + {id}) == some + one;
  }

  lemma NotYetStopped(s: State, ids: set<Id>, id: Id)
    requires Apart(s) && id !in ids
    ensures HandlesOf(s.tcp, ids) + HandlesOf(s.udp, ids) !! HandlesOf(s.tcp - ids, {id}) + HandlesOf(s.udp - ids, {id})
  {
    if id in s.tcp {
      assert Owns(s, Tcp(id), s.tcp[id]);
      StoppedHandles(s, ids, Tcp(id), s.tcp[id]);
    }
    if id in s.udp {
      assert Owns(s, Udp(id), s.udp[id]);
      StoppedHandles(s, ids, Udp(id), s.udp[id]);
    }
  }
}
