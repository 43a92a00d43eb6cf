/** The reconciler (server/server.go applyRulesLocked, startRule): it diffs the enabled server-side
    rules against the running listeners, in whatever order Go ranges over the two maps and whatever
    binds fail. */
module Reconciler {
  import opened Rules

  type Id = string

  /** A running listener: its identity, and the rule fields it was started with. */
  datatype Runner = Runner(listener: nat, proto: string, listen: int, target: string, client: string)

  /** One attempt to bind a port; `clash` says that another live runner held the port. */
  datatype Bind = Bind(id: Id, clash: bool)

  /** The runners, how often each listener ever opened has been stopped, and the binds attempted. */
  datatype Net = Net(runners: map<Id, Runner>, stops: seq<nat>, binds: seq<Bind>)

  /** What the environment decides in one call: which binds work, and both iteration orders. */
  datatype Schedule = Schedule(bindOk: Id -> bool, starts: seq<Id>, sweeps: seq<Id>)

  predicate SameAs(rn: Runner, r: Rule) {
    rn.proto == r.proto && rn.listen == r.listen && rn.target == r.target && rn.client == r.client
  }

  predicate Startable(r: Rule) {
    r.proto == "tcp" || r.proto == "udp"
  }

  predicate Wanted(r: Rule) {
    r.enabled && !r.AtClient()
  }

  /** The rules to run, by id; of several with one id the last counts. */
  function Desired(rules: seq<Rule>): (d: map<Id, Rule>)
    ensures forall id :: id in d ==> d[id] in rules && d[id].id == id && Wanted(d[id])
    ensures forall r :: r in rules && Wanted(r) ==> r.id in d
  {
    if rules == [] then map[]
    else
      var front, r := Desired(rules[..|rules| - 1]), rules[|rules| - 1];
      assert rules == rules[..|rules| - 1] + [r];
      if Wanted(r) then front[r.id := r] else front
  }

  function Stop(net: Net, id: Id): Net {
    if id in net.runners && net.runners[id].listener < |net.stops| then
      var l := net.runners[id].listener;
      net.(runners := net.runners - {id}, stops := net.stops[l := net.stops[l] + 1])
    else net
  }

  predicate PortHeld(runners: map<Id, Runner>, r: Rule) {
    exists j :: j in runners && runners[j].proto == r.proto && runners[j].listen == r.listen
  }

  function Start(net: Net, id: Id, r: Rule, bindOk: bool): Net {
    if !Startable(r) then net
    else
      var tried := net.(binds := net.binds + [Bind(id, PortHeld(net.runners, r))]);
      if !bindOk then tried
      else tried.(runners := net.runners[id := Runner(|net.stops|, r.proto, r.listen, r.target, r.client)],
                  stops := net.stops + [0])
  }

  /** The body of the first loop. */
  function Renew(net: Net, id: Id, r: Rule, bindOk: bool): Net {
    if id in net.runners && SameAs(net.runners[id], r) then net else Start(Stop(net, id), id, r, bindOk)
  }

  function StartAll(net: Net, desired: map<Id, Rule>, order: seq<Id>, bindOk: Id -> bool): Net {
    if order == [] then net
    else
      var before, id := StartAll(net, desired, order[..|order| - 1], bindOk), order[|order| - 1];
      if id in desired then Renew(before, id, desired[id], bindOk(id)) else before
  }

  function SweepAll(net: Net, desired: map<Id, Rule>, order: seq<Id>): Net {
    if order == [] then net
    else
      var before, id := SweepAll(net, desired, order[..|order| - 1]), order[|order| - 1];
      if id in desired then before else Stop(before, id)
  }

  function Apply(net: Net, rules: seq<Rule>, sched: Schedule): Net {
    var d := Desired(rules);
    SweepAll(StartAll(net, d, sched.starts, sched.bindOk), d, sched.sweeps)
  }

  ghost predicate IsOrderOf(order: seq<Id>, keys: set<Id>) {
    && (forall id :: id in order <==> id in keys)
    && forall i, j :: 0 <= i < j < |order| ==> order[i] != order[j]
  }

  /** Both loops visit every key once. */
  ghost predicate Covers(net: Net, rules: seq<Rule>, sched: Schedule) {
    && IsOrderOf(sched.starts, Desired(rules).Keys)
    && IsOrderOf(sched.sweeps, StartAll(net, Desired(rules), sched.starts, sched.bindOk).runners.Keys)
  }

  // ---- every listener is owned once or stopped once ----

  ghost predicate Owned(net: Net, l: nat) {
    exists id :: id in net.runners && net.runners[id].listener == l
  }

  ghost predicate RunnersLive(net: Net) {
    forall id :: id in net.runners ==>
        net.runners[id].listener < |net.stops| && net.stops[net.runners[id].listener] == 0
  }

  ghost predicate RunnersApart(net: Net) {
    forall i, j :: i in net.runners && j in net.runners && net.runners[i].listener == net.runners[j].listener ==> i == j
  }

  ghost predicate Accounted(net: Net) {
    forall l :: 0 <= l < |net.stops| ==> net.stops[l] == 1 || (net.stops[l] == 0 && Owned(net, l))
  }

  /** Each listener ever opened either belongs to exactly one runner and has never been stopped, or
      belongs to none and has been stopped exactly once. */
  ghost predicate Conserved(net: Net) {
    RunnersLive(net) && RunnersApart(net) && Accounted(net)
  }

  lemma StopConserves(net: Net, id: Id)
    requires Conserved(net)
    ensures Conserved(Stop(net, id)) && id !in Stop(net, id).runners
  {
    var net' := Stop(net, id);
    forall l | 0 <= l < |net'.stops| && net'.stops[l] != 1 ensures net'.stops[l] == 0 && Owned(net', l) {
      var j :| j in net.runners && net.runners[j].listener == l;
      assert j in net'.runners;
    }
  }

  lemma OwnerStays(net: Net, id: Id, rn: Runner, l: nat)
    requires Owned(net, l) && id !in net.runners
    ensures Owned(net.(runners := net.runners[id := rn], stops := net.stops + [0]), l)
  {
    var j :| j in net.runners && net.runners[j].listener == l;
    assert net.runners[id := rn][j].listener == l;
  }

  lemma StartConserves(net: Net, id: Id, r: Rule, bindOk: bool)
    requires Conserved(net) && id !in net.runners
    ensures Conserved(Start(net, id, r, bindOk))
  {
    var rn := Runner(|net.stops|, r.proto, r.listen, r.target, r.client);
    var net' := net.(runners := net.runners[id := rn], stops := net.stops + [0]);
    StartedIsAccounted(net, id, rn);
    StartedIsApart(net, id, rn);
    assert Conserved(net');
  }

  lemma StartedIsApart(net: Net, id: Id, rn: Runner)
    requires RunnersLive(net) && RunnersApart(net) && id !in net.runners && rn.listener == |net.stops|
    ensures var net' := net.(runners := net.runners[id := rn], stops := net.stops + [0]);
            RunnersLive(net') && RunnersApart(net')
  {
  }

  lemma StartedIsAccounted(net: Net, id: Id, rn: Runner)
    requires Accounted(net) && id !in net.runners && rn.listener == |net.stops|
    ensures Accounted(net.(runners := net.runners[id := rn], stops := net.stops + [0]))
  {
    var net' := net.(runners := net.runners[id := rn], stops := net.stops + [0]);
    assert net'.runners[id].listener == |net.stops|;
    forall l | 0 <= l < |net.stops| && net.stops[l] == 0 ensures Owned(net', l) {
      OwnerStays(net, id, rn, l);
    }
  }

  lemma {:induction false} StartAllConserves(net: Net, desired: map<Id, Rule>, order: seq<Id>, bindOk: Id -> bool)
    requires Conserved(net)
    ensures Conserved(StartAll(net, desired, order, bindOk))
  {
    if order != [] {
      StartAllConserves(net, desired, order[..|order| - 1], bindOk);
      var before, id := StartAll(net, desired, order[..|order| - 1], bindOk), order[|order| - 1];
      if id in desired {
        StopConserves(before, id);
        StartConserves(Stop(before, id), id, desired[id], bindOk(id));
      }
    }
  }

  lemma {:induction false} SweepAllConserves(net: Net, desired: map<Id, Rule>, order: seq<Id>)
    requires Conserved(net)
    ensures Conserved(SweepAll(net, desired, order))
  {
    if order != [] {
      SweepAllConserves(net, desired, order[..|order| - 1]);
      StopConserves(SweepAll(net, desired, order[..|order| - 1]), order[|order| - 1]);
    }
  }

  lemma ApplyConserves(net: Net, rules: seq<Rule>, sched: Schedule)
    requires Conserved(net)
    ensures Conserved(Apply(net, rules, sched))
  {
    StartAllConserves(net, Desired(rules), sched.starts, sched.bindOk);
    SweepAllConserves(StartAll(net, Desired(rules), sched.starts, sched.bindOk), Desired(rules), sched.sweeps);
  }

  // ---- the runners end up as the rules say ----

  /** A desired rule whose runner is up already. */
  predicate Matched(net: Net, desired: map<Id, Rule>, id: Id) {
    id in desired && id in net.runners && SameAs(net.runners[id], desired[id])
  }

  /** What a call makes of one desired rule: an up-to-date runner stays the very same one; any other
      rule has a new listener exactly when its bind worked, and no runner otherwise. */
  ghost predicate Settled(net: Net, net': Net, desired: map<Id, Rule>, id: Id, bindOk: bool)
    requires id in desired
  {
    if Matched(net, desired, id) then id in net'.runners && net'.runners[id] == net.runners[id]
    else if Startable(desired[id]) && bindOk then
      id in net'.runners && SameAs(net'.runners[id], desired[id]) && net'.runners[id].listener >= |net.stops|
    else id !in net'.runners
  }

  ghost predicate SameRunner(net: Net, net': Net, id: Id) {
    if id in net.runners then id in net'.runners && net'.runners[id] == net.runners[id] else id !in net'.runners
  }

  lemma RenewSettles(net: Net, desired: map<Id, Rule>, at: Id, bindOk: bool, id: Id)
    requires Conserved(net) && at in desired
    ensures var net' := Renew(net, at, desired[at], bindOk);
            && |net'.stops| >= |net.stops|
            && (if id == at then Settled(net, net', desired, id, bindOk) else SameRunner(net, net', id))
  {
  }

  lemma {:induction false} StartAllSettles(net: Net, desired: map<Id, Rule>, order: seq<Id>, bindOk: Id -> bool, id: Id)
    requires Conserved(net) && forall i, j :: 0 <= i < j < |order| ==> order[i] != order[j]
    ensures var net' := StartAll(net, desired, order, bindOk);
            && |net'.stops| >= |net.stops|
            && (if id in order && id in desired then Settled(net, net', desired, id, bindOk(id))
                else SameRunner(net, net', id))
  {
    if order != [] {
      var front, at := order[..|order| - 1], order[|order| - 1];
      StartAllSettles(net, desired, front, bindOk, id);
      StartAllConserves(net, desired, front, bindOk);
      assert at !in front && order == front + [at];
      if at in desired {
        RenewSettles(StartAll(net, desired, front, bindOk), desired, at, bindOk(at), id);
      }
    }
  }

  lemma {:induction false} SweepAllSettles(net: Net, desired: map<Id, Rule>, order: seq<Id>, id: Id)
    requires Conserved(net)
    ensures var net' := SweepAll(net, desired, order);
            && |net'.stops| == |net.stops| && net'.binds == net.binds
            && (if id in order && id !in desired then id !in net'.runners else SameRunner(net, net', id))
  {
    if order != [] {
      var front, at := order[..|order| - 1], order[|order| - 1];
      SweepAllSettles(net, desired, front, id);
      SweepAllConserves(net, desired, front);
      assert order == front + [at];
      StopConserves(SweepAll(net, desired, front), at);
    }
  }

  /** The fate of one id: settled by its rule, or gone. */
  lemma ApplySettles(net: Net, rules: seq<Rule>, sched: Schedule, id: Id)
    requires Conserved(net) && Covers(net, rules, sched)
    ensures var net', d := Apply(net, rules, sched), Desired(rules);
            && |net'.stops| >= |net.stops|
            && (if id in d then Settled(net, net', d, id, sched.bindOk(id)) else id !in net'.runners)
  {
    var d := Desired(rules);
    StartAllSettles(net, d, sched.starts, sched.bindOk, id);
    StartAllConserves(net, d, sched.starts, sched.bindOk);
    SweepAllSettles(StartAll(net, d, sched.starts, sched.bindOk), d, sched.sweeps, id);
  }

  lemma ReplacedRunnersAreStopped(net: Net, rules: seq<Rule>, sched: Schedule, id: Id)
    requires Conserved(net) && Covers(net, rules, sched) && id in net.runners
    ensures var net' := Apply(net, rules, sched);
            && |net'.stops| >= |net.stops|
            && net'.stops[net.runners[id].listener] == if Matched(net, Desired(rules), id) then 0 else 1
  {
    var net', l := Apply(net, rules, sched), net.runners[id].listener;
    ApplyConserves(net, rules, sched);
    ApplySettles(net, rules, sched, id);
    if !Matched(net, Desired(rules), id) && net'.stops[l] == 0 {
      var j :| j in net'.runners && net'.runners[j].listener == l;
      ApplySettles(net, rules, sched, j);
    }
  }

  /** Which rules are to run: of the rules with one id, the last one that is enabled and not the client's. */
  lemma {:induction false} DesiredIsTheLast(rules: seq<Rule>, i: nat)
    requires i < |rules| && rules[i].enabled && rules[i].side != "client"
    requires forall j :: i < j < |rules| && rules[j].id == rules[i].id ==>
        !rules[j].enabled || rules[j].side == "client"
    ensures rules[i].id in Desired(rules) && Desired(rules)[rules[i].id] == rules[i]
  {
    if i < |rules| - 1 {
      assert rules[..|rules| - 1][i] == rules[i];
      DesiredIsTheLast(rules[..|rules| - 1], i);
    }
  }

  /** For every iteration order and every outcome of the binds: afterwards every runner belongs to an
      enabled rule that is not the client's, and carries that rule's protocol, port, target and client; a
      runner from before is the same object, never stopped, exactly when its rule has all four as it had
      them, and otherwise was stopped once; and a rule has a runner exactly when it kept one, or its
      protocol can be listened on and its bind worked in this call. */
  lemma ApplyReconciles(net: Net, rules: seq<Rule>, sched: Schedule)
    requires Conserved(net) && Covers(net, rules, sched)
    ensures var net', d := Apply(net, rules, sched), Desired(rules);
            && |net'.stops| >= |net.stops|
            && (forall id :: id in net'.runners ==>
                  && id in d && d[id].enabled && d[id].side != "client"
                  && net'.runners[id].proto == d[id].proto && net'.runners[id].listen == d[id].listen
                  && net'.runners[id].target == d[id].target && net'.runners[id].client == d[id].client)
            && (forall id :: id in net.runners ==>
                  var rn := net.runners[id];
                  if id in d && d[id].proto == rn.proto && d[id].listen == rn.listen && d[id].target == rn.target
                     && d[id].client == rn.client
                  then net'.stops[rn.listener] == 0 && id in net'.runners && net'.runners[id] == rn
                  else net'.stops[rn.listener] == 1 && forall j :: j in net'.runners ==>
                         net'.runners[j].listener != rn.listener)
            && (forall id :: id in d ==>
                  (id in net'.runners <==>
                     || (id in net.runners && d[id].proto == net.runners[id].proto
                         && d[id].listen == net.runners[id].listen && d[id].target == net.runners[id].target
                         && d[id].client == net.runners[id].client)
                     || (d[id].proto in {"tcp", "udp"} && sched.bindOk(id))))
  {
    var net', d := Apply(net, rules, sched), Desired(rules);
    ApplySettles(net, rules, sched, "");
    ApplyConserves(net, rules, sched);
    forall id | id in d ensures Settled(net, net', d, id, sched.bindOk(id)) {
      ApplySettles(net, rules, sched, id);
    }
    forall id | id in net'.runners ensures id in d && SameAs(net'.runners[id], d[id]) {
      ApplySettles(net, rules, sched, id);
    }
    forall id | id in net.runners
      ensures net'.stops[net.runners[id].listener] == if Matched(net, d, id) then 0 else 1
    {
      ReplacedRunnersAreStopped(net, rules, sched, id);
    }
  }

  // ---- binds that clash with the server's own listeners ----

  predicate NeedsBind(net: Net, desired: map<Id, Rule>, id: Id) {
    id in desired && Startable(desired[id]) && !Matched(net, desired, id)
  }

  predicate PortOf(r: Rule, proto: string, listen: int) {
    r.proto == proto && r.listen == listen
  }

  /** `j` stands in the way of rule `a`: its runner is up on that port, or it will be started there too. */
  predicate Rivals(net: Net, desired: map<Id, Rule>, a: Id, j: Id) {
    && a != j && NeedsBind(net, desired, a)
    && ((j in net.runners && PortOf(desired[a], net.runners[j].proto, net.runners[j].listen))
        || (NeedsBind(net, desired, j) && PortOf(desired[a], desired[j].proto, desired[j].listen)))
  }

  ghost predicate NoRivals(net: Net, desired: map<Id, Rule>) {
    forall a, j :: !Rivals(net, desired, a, j)
  }

  /** None of the binds attempted since `net` met a live runner on its port. */
  ghost predicate Quiet(net: Net, net': Net) {
    && net.binds <= net'.binds
    && forall i :: |net.binds| <= i < |net'.binds| ==> !net'.binds[i].clash
  }

  lemma {:induction false} StartAllIsQuiet(net: Net, desired: map<Id, Rule>, order: seq<Id>, bindOk: Id -> bool)
    requires Conserved(net) && forall i, j :: 0 <= i < j < |order| ==> order[i] != order[j]
    requires NoRivals(net, desired)
    ensures Quiet(net, StartAll(net, desired, order, bindOk))
  {
    if order != [] {
      var front, at := order[..|order| - 1], order[|order| - 1];
      StartAllIsQuiet(net, desired, front, bindOk);
      var before := StartAll(net, desired, front, bindOk);
      StartAllConserves(net, desired, front, bindOk);
      assert at !in front;
      StartAllSettles(net, desired, front, bindOk, at);
      if NeedsBind(net, desired, at) {
        StopConserves(before, at);
        forall j | j in Stop(before, at).runners
          ensures !PortOf(desired[at], before.runners[j].proto, before.runners[j].listen)
        {
          StartAllSettles(net, desired, front, bindOk, j);
          assert !Rivals(net, desired, at, j);
        }
      }
    }
  }

  lemma {:induction false} BindsGrow(net: Net, desired: map<Id, Rule>, p: seq<Id>, q: seq<Id>, bindOk: Id -> bool)
    ensures StartAll(net, desired, p, bindOk).binds <= StartAll(net, desired, p + q, bindOk).binds
  {
    if q == [] {
      assert p + q == p;
    } else {
      assert (p + q)[..|p + q| - 1] == p + q[..|q| - 1];
      BindsGrow(net, desired, p, q[..|q| - 1], bindOk);
    }
  }

  lemma OrderWithFirst(id: Id, rest: seq<Id>, keys: set<Id>)
    requires id in keys && IsOrderOf(rest, keys - {id})
    ensures IsOrderOf([id] + rest, keys)
  {
    var order := [id] + rest;
    assert forall x :: x in order <==> x == id || x in rest;
  }

  lemma {:induction false} MakeOrder(keys: set<Id>) returns (order: seq<Id>)
    ensures IsOrderOf(order, keys)
  {
    if keys == {} {
      order := [];
    } else {
      var id :| id in keys;
      var rest := MakeOrder(keys - {id});
      OrderWithFirst(id, rest, keys);
      order := [id] + rest;
    }
  }

  ghost predicate Clashed(net: Net, net': Net) {
    exists k :: |net.binds| <= k < |net'.binds| && net'.binds[k].clash
  }

  /** The rival's runner is up when `a` is renewed first. */
  lemma RunningRivalClashes(net: Net, d: map<Id, Rule>, a: Id, j: Id, bindOk: Id -> bool)
    requires NeedsBind(net, d, a) && a != j && j in net.runners
    requires PortOf(d[a], net.runners[j].proto, net.runners[j].listen)
    ensures Clashed(net, StartAll(net, d, [a], bindOk))
  {
    assert [a][..0] == [];
    assert j in Stop(net, a).runners;
    var net' := StartAll(net, d, [a], bindOk);
    assert StartAll(net, d, [], bindOk) == net;
    assert net' == Renew(net, a, d[a], bindOk(a));
    assert net'.binds[|net.binds|].clash;
  }

  /** The rival is renewed right after `a` has been. */
  lemma PendingRivalClashes(net: Net, d: map<Id, Rule>, a: Id, j: Id, bindOk: Id -> bool)
    requires Conserved(net) && NeedsBind(net, d, a) && NeedsBind(net, d, j) && a != j
    requires PortOf(d[a], d[j].proto, d[j].listen) && bindOk(a)
    ensures Clashed(net, StartAll(net, d, [a, j], bindOk))
  {
    var one, two := Renew(net, a, d[a], true), StartAll(net, d, [a, j], bindOk);
    assert [a][..0] == [] && [a, j][..1] == [a];
    assert StartAll(net, d, [a], bindOk) == one;
    assert two == Renew(one, j, d[j], bindOk(j));
    RenewSettles(net, d, a, true, a);
    RenewSettles(net, d, a, true, j);
    assert a in Stop(one, j).runners;
    assert two.binds[|one.binds|].clash;
  }

  lemma StaysClashed(net: Net, rules: seq<Rule>, first: seq<Id>, rest: seq<Id>, bindOk: Id -> bool, sweeps: seq<Id>)
    requires Conserved(net) && Clashed(net, StartAll(net, Desired(rules), first, bindOk))
    ensures !Quiet(net, Apply(net, rules, Schedule(bindOk, first + rest, sweeps)))
  {
    var d := Desired(rules);
    var begun, started := StartAll(net, d, first, bindOk), StartAll(net, d, first + rest, bindOk);
    BindsGrow(net, d, first, rest, bindOk);
    StartAllConserves(net, d, first + rest, bindOk);
    SweepAllSettles(started, d, sweeps, "");
    var k :| |net.binds| <= k < |begun.binds| && begun.binds[k].clash;
    assert started.binds[k].clash;
  }

  /** Two rivals: a schedule that takes `a` first and `j` right after it, with every bind working,
      makes a bind run into a live runner. */
  lemma RivalsClash(net: Net, rules: seq<Rule>, a: Id, j: Id) returns (sched: Schedule)
    requires Conserved(net) && Rivals(net, Desired(rules), a, j)
    ensures Covers(net, rules, sched) && !Quiet(net, Apply(net, rules, sched))
  {
    var d, yes := Desired(rules), (id: Id) => true;
    var first, rest;
    if NeedsBind(net, d, j) && PortOf(d[a], d[j].proto, d[j].listen) {
      PendingRivalClashes(net, d, a, j, yes);
      rest := MakeOrder(d.Keys - {a} - {j});
      OrderWithFirst(j, rest, d.Keys - {a});
      OrderWithFirst(a, [j] + rest, d.Keys);
      first := [a, j];
      assert [a] + ([j] + rest) == first + rest;
    } else {
      RunningRivalClashes(net, d, a, j, yes);
      rest := MakeOrder(d.Keys - {a});
      OrderWithFirst(a, rest, d.Keys);
      first := [a];
    }
    var sweeps := MakeOrder(StartAll(net, d, first + rest, yes).runners.Keys);
    StaysClashed(net, rules, first, rest, yes, sweeps);
    sched := Schedule(yes, first + rest, sweeps);
  }

  /** A call is free of self-inflicted clashes, in every order and for every outcome of the binds,
      exactly when no rule to be started has a rival. */
  lemma ApplyNeverClashesIff(net: Net, rules: seq<Rule>)
    requires Conserved(net)
    ensures (forall sched :: Covers(net, rules, sched) ==> Quiet(net, Apply(net, rules, sched)))
       <==> NoRivals(net, Desired(rules))
  {
    var d := Desired(rules);
    if NoRivals(net, d) {
      forall sched | Covers(net, rules, sched) ensures Quiet(net, Apply(net, rules, sched)) {
        StartAllIsQuiet(net, d, sched.starts, sched.bindOk);
        StartAllConserves(net, d, sched.starts, sched.bindOk);
        SweepAllSettles(StartAll(net, d, sched.starts, sched.bindOk), d, sched.sweeps, "");
      }
    } else {
      var a, j :| Rivals(net, d, a, j);
      var sched := RivalsClash(net, rules, a, j);
    }
  }
}
