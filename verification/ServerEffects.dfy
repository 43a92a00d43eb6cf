/** What each operation on the configuration achieves (server/state.go): when it is turned down and why, what
    it stores, and what becomes of the listeners. */
module ServerEffects {
  import Acl
  import opened Rules
  import opened Reconciler
  import opened ServerState

  /** Nothing but the rules and the listeners has changed. */
  ghost predicate OnlyRules(s: State, s': State) {
    s'.cfg == s.cfg.(rules := s'.cfg.rules) && s'.notifier == s.notifier && s'.blVersion == s.blVersion
  }

  /** A rule for which some rule with another number and id stands in the way: it wants the port, and both
      listen at the server or both at the same client. */
  lemma PortTakenIff(rules: seq<Rule>, skipIdx: int, r: Rule, skip: string)
    ensures PortTaken(rules, skipIdx, r, skip)
       <==> exists i: nat :: i < |rules| && i != skipIdx && rules[i].id != skip && rules[i].listen == r.listen
                             && (rules[i].side == "client" <==> r.side == "client")
                             && (r.side == "client" ==> rules[i].client == r.client)
  {
    forall i: nat | i < |rules|
      ensures Conflicts(rules, i, skipIdx, r, skip)
         <==> i != skipIdx && rules[i].id != skip && rules[i].listen == r.listen
              && (rules[i].side == "client" <==> r.side == "client")
              && (r.side == "client" ==> rules[i].client == r.client)
    {
    }
  }

  /** A listener for a rule: on its port, for its target and client. */
  ghost predicate Serves(net: Net, id: Id, r: Rule) {
    id in net.runners && net.runners[id].proto == r.proto && net.runners[id].listen == r.listen
    && net.runners[id].target == r.target && net.runners[id].client == r.client
  }

  /** The only rule of its id after a reconciliation: it is served if it is enabled, not the client's, of a
      known protocol and its bind works or it was served; and it is not if it is switched off or the client's. */
  lemma LoneRuleIsServed(net: Net, rules: seq<Rule>, sched: Schedule, i: nat)
    requires Conserved(net) && Covers(net, rules, sched) && i < |rules|
    requires forall j :: 0 <= j < |rules| && j != i ==> rules[j].id != rules[i].id
    ensures var net', r := Apply(net, rules, sched), rules[i];
            && ((r.enabled && r.side != "client" && r.proto in {"tcp", "udp"}
                 && (sched.bindOk(r.id) || Serves(net, r.id, r)))
                ==> Serves(net', r.id, r))
            && (!r.enabled || r.side == "client" ==>
                  r.id !in net'.runners
                  && (r.id in net.runners ==>
                        |net'.stops| >= |net.stops| && net'.stops[net.runners[r.id].listener] == 1))
  {
    var d := Desired(rules);
    ApplyReconciles(net, rules, sched);
    if rules[i].enabled && rules[i].side != "client" {
      DesiredIsTheLast(rules, i);
    }
  }

  /** When an addition is turned down: exactly if the rule breaks a condition or its port is taken. */
  lemma AddOutcomeIff(env: Env, s: State, r: Rule, id: Id, saved: bool, sched: Schedule)
    ensures var (s', outcome) := Do(env, s, AddRule(r, id, saved, sched));
            var bad := exists e :: Violates(env, r, s.cfg.clients, e);
            var taken := exists x :: x in s.cfg.rules && x.id != "" && x.listen == r.listen
                                     && (x.side == "client" <==> r.side == "client")
                                     && (r.side == "client" ==> x.client == r.client);
            && OnlyRules(s, s')
            && outcome == if bad then Invalid else if taken then Conflict else if saved then Done else SaveFailed
  {
    PortTakenIff(s.cfg.rules, -1, r, "");
  }

  /** An added rule is stored after the others, enabled, under the new id and with all else as given; and if
      no other rule has that id it is listened for as soon as its bind works. */
  lemma AddRuleMeans(env: Env, s: State, r: Rule, id: Id, sched: Schedule)
    requires Conserved(s.net) && Legal(env, s, AddRule(r, id, true, sched))
    requires Do(env, s, AddRule(r, id, true, sched)).1.Done?
    ensures var s', n := Do(env, s, AddRule(r, id, true, sched)).0, |s.cfg.rules|;
            && |s'.cfg.rules| == n + 1 && s'.cfg.rules[..n] == s.cfg.rules
            && (var x := s'.cfg.rules[n];
                && x.id == id && x.enabled && x.name == r.name && x.side == r.side && x.proto == r.proto
                && x.listen == r.listen && x.client == r.client && x.target == r.target
                && x.allowFrom == r.allowFrom && x.maxMbps == r.maxMbps && x.maxConns == r.maxConns
                && x.idleMin == r.idleMin && x.proxyProto == r.proxyProto)
            && ((forall y :: y in s.cfg.rules ==> y.id != id) && r.side != "client" && sched.bindOk(id) ==>
                  Serves(s'.net, id, r))
  {
    var s', n := Do(env, s, AddRule(r, id, true, sched)).0, |s.cfg.rules|;
    assert !Violates(env, r, s.cfg.clients, BadProto);
    if forall y :: y in s.cfg.rules ==> y.id != id {
      assert forall j :: 0 <= j < n ==> s'.cfg.rules[j] in s.cfg.rules;
      LoneRuleIsServed(s.net, s'.cfg.rules, sched, n);
    }
  }

  /** When an update is turned down: exactly if there is no such rule, the new one breaks a condition, or
      another id stands in the way. */
  lemma UpdateOutcomeIff(env: Env, s: State, id: Id, nr: Rule, saved: bool, sched: Schedule)
    ensures var (s', outcome) := Do(env, s, UpdateRule(id, nr, saved, sched));
            var found := exists x :: x in s.cfg.rules && x.id == id;
            var bad := exists e :: Violates(env, nr, s.cfg.clients, e);
            var taken := exists x :: x in s.cfg.rules && x.id != id && x.listen == nr.listen
                                     && (x.side == "client" <==> nr.side == "client")
                                     && (nr.side == "client" ==> x.client == nr.client);
            && OnlyRules(s, s')
            && outcome == if !found then NotFound else if bad then Invalid else if taken then Conflict
                          else if saved then Done else SaveFailed
  {
    var rules, i := s.cfg.rules, IndexOf(s.cfg.rules, id);
    if i >= 0 {
      assert rules[i] in rules;
      SameComplaints(env, nr, s.cfg.clients, id, rules[i].enabled);
      PortTakenIff(rules, i, nr.(id := id, enabled := rules[i].enabled), id);
    }
  }

  /** An update that goes through keeps the place, id and switch of the first rule with that id, takes over
      all else, and leaves the other rules as they are; the new version is listened for, if the rule is on
      and its id its own, as soon as its bind works or nothing about the listener has changed. */
  lemma UpdateRuleMeans(env: Env, s: State, id: Id, nr: Rule, sched: Schedule) returns (i: nat)
    requires Conserved(s.net) && Legal(env, s, UpdateRule(id, nr, true, sched))
    requires Do(env, s, UpdateRule(id, nr, true, sched)).1.Done?
    ensures var rules, s' := s.cfg.rules, Do(env, s, UpdateRule(id, nr, true, sched)).0;
            && i < |rules| && rules[i].id == id && (forall j :: 0 <= j < i ==> rules[j].id != id)
            && |s'.cfg.rules| == |rules| && (forall j :: 0 <= j < |rules| && j != i ==> s'.cfg.rules[j] == rules[j])
            && (var x := s'.cfg.rules[i];
                && x.id == id && x.enabled == rules[i].enabled && x.name == nr.name && x.side == nr.side
                && x.proto == nr.proto && x.listen == nr.listen && x.client == nr.client && x.target == nr.target
                && x.allowFrom == nr.allowFrom && x.maxMbps == nr.maxMbps && x.maxConns == nr.maxConns
                && x.idleMin == nr.idleMin && x.proxyProto == nr.proxyProto)
            && (((forall j :: 0 <= j < |rules| && j != i ==> rules[j].id != id) && rules[i].enabled
                 && nr.side != "client" && (sched.bindOk(id) || Serves(s.net, id, nr)))
                ==> Serves(s'.net, id, nr))
  {
    var rules, s' := s.cfg.rules, Do(env, s, UpdateRule(id, nr, true, sched)).0;
    i := IndexOf(rules, id);
    SameComplaints(env, nr, s.cfg.clients, id, rules[i].enabled);
    assert !Violates(env, nr, s.cfg.clients, BadProto);
    if forall j :: 0 <= j < |rules| && j != i ==> rules[j].id != id {
      LoneRuleIsServed(s.net, s'.cfg.rules, sched, i);
    }
  }

  lemma SameComplaints(env: Env, r: Rule, clients: seq<ClientUser>, id: Id, on: bool)
    ensures forall e :: Violates(env, r, clients, e) <==> Violates(env, r.(id := id, enabled := on), clients, e)
  {
    assert TargetsOf(r) == TargetsOf(r.(id := id, enabled := on));
  }

  /** Deleting takes out the first rule with the id, if there is one, and stops its listener once; all other
      rules and listeners stay. */
  lemma DeleteRuleMeans(env: Env, s: State, id: Id, saved: bool) returns (i: int)
    requires Conserved(s.net)
    ensures var rules, (s', outcome) := s.cfg.rules, Do(env, s, DeleteRule(id, saved));
            && -1 <= i < |rules| && OnlyRules(s, s')
            && (i < 0 ==> outcome.NotFound? && s' == s && forall j :: 0 <= j < |rules| ==> rules[j].id != id)
            && (i >= 0 ==>
                  && outcome == (if saved then Done else SaveFailed)
                  && rules[i].id == id && (forall j :: 0 <= j < i ==> rules[j].id != id)
                  && s'.cfg.rules == rules[..i] + rules[i + 1..]
                  && StopsOnly(s.net, s'.net, id))
  {
    i := IndexOf(s.cfg.rules, id);
    if i >= 0 {
      StopsOne(s.net, id);
    }
  }

  /** The runner of `id` is gone and its listener stopped once; nothing else has happened to listeners. */
  ghost predicate StopsOnly(net: Net, net': Net, id: Id) {
    && |net'.stops| == |net.stops| && net'.binds == net.binds && id !in net'.runners
    && (forall j :: j in net.runners && j != id ==> j in net'.runners && net'.runners[j] == net.runners[j])
    && (forall l :: 0 <= l < |net.stops| ==>
          net'.stops[l] == net.stops[l] + if id in net.runners && net.runners[id].listener == l then 1 else 0)
  }

  lemma StopsOne(net: Net, id: Id)
    requires Conserved(net)
    ensures StopsOnly(net, Stop(net, id), id)
  {
  }

  /** A switch touches nothing but the switch of the first rule with the id. */
  lemma SwitchMeans(env: Env, s: State, id: Id, on: bool, sched: Schedule) returns (i: nat)
    requires exists x :: x in s.cfg.rules && x.id == id
    ensures var rules, (s', outcome) := s.cfg.rules, Do(env, s, SetRuleEnabled(id, on, true, sched));
            && outcome.Done? && OnlyRules(s, s')
            && i < |rules| && rules[i].id == id && (forall j :: 0 <= j < i ==> rules[j].id != id)
            && |s'.cfg.rules| == |rules| && (forall j :: 0 <= j < |rules| && j != i ==> s'.cfg.rules[j] == rules[j])
            && s'.cfg.rules[i].enabled == on && s'.cfg.rules[i].(enabled := rules[i].enabled) == rules[i]
  {
    i := IndexOf(s.cfg.rules, id);
  }

  /** Switched off, a rule that has its id to itself loses its listener, which is stopped once; switched on,
      it is listened for as soon as its bind works. */
  lemma SwitchedRuleIsServedIff(env: Env, s: State, id: Id, on: bool, sched: Schedule, i: nat)
    requires Conserved(s.net) && Legal(env, s, SetRuleEnabled(id, on, true, sched))
    requires i < |s.cfg.rules| && s.cfg.rules[i].id == id
    requires forall j :: 0 <= j < |s.cfg.rules| && j != i ==> s.cfg.rules[j].id != id
    ensures var r, net' := s.cfg.rules[i], Do(env, s, SetRuleEnabled(id, on, true, sched)).0.net;
            && |net'.stops| >= |s.net.stops|
            && (!on ==> id !in net'.runners
                        && (id in s.net.runners ==> net'.stops[s.net.runners[id].listener] == 1))
            && (on && r.side != "client" && r.proto in {"tcp", "udp"} && sched.bindOk(id) ==> Serves(net', id, r))
  {
    assert IndexOf(s.cfg.rules, id) == i;
    var rules' := s.cfg.rules[i := s.cfg.rules[i].(enabled := on)];
    LoneRuleIsServed(s.net, rules', sched, i);
    ApplySettles(s.net, rules', sched, id);
  }

  lemma SwitchOutcomeIff(env: Env, s: State, id: Id, on: bool, saved: bool, sched: Schedule)
    ensures var (s', outcome) := Do(env, s, SetRuleEnabled(id, on, saved, sched));
            && outcome == (if forall x :: x in s.cfg.rules ==> x.id != id then NotFound
                           else if saved then Done else SaveFailed)
            && (!outcome.Done? ==> s' == s)
  {
    var i := IndexOf(s.cfg.rules, id);
    if i >= 0 {
      assert s.cfg.rules[i] in s.cfg.rules;
    }
  }

  /** A new client goes to the end of the list, in memory at once; a name that is empty or taken is refused. */
  lemma AddClientMeans(env: Env, s: State, user: ClientUser, saved: bool)
    ensures var (s', outcome) := Do(env, s, AddClient(user, saved));
            && outcome == (if user.name == "" then Invalid
                           else if exists c :: c in s.cfg.clients && c.name == user.name then Conflict
                           else if saved then Done else SaveFailed)
            && s' == s.(cfg := s.cfg.(clients := s'.cfg.clients))
            && (outcome.Done? || outcome.SaveFailed? ==>
                  |s'.cfg.clients| == |s.cfg.clients| + 1 && s.cfg.clients < s'.cfg.clients
                  && s'.cfg.clients[|s.cfg.clients|] == user)
            && (!outcome.Done? && !outcome.SaveFailed? ==> s' == s)
  {
  }

  /** A deleted one leaves it, in memory at once, unless a rule refers to it. */
  lemma DeleteClientMeans(env: Env, s: State, name: string, saved: bool) returns (i: int)
    ensures var clients, (s', outcome) := s.cfg.clients, Do(env, s, DeleteClient(name, saved));
            && -1 <= i < |clients| && s' == s.(cfg := s.cfg.(clients := s'.cfg.clients))
            && (i < 0 ==> outcome.NotFound? && s' == s && forall j :: 0 <= j < |clients| ==> clients[j].name != name)
            && (i >= 0 ==>
                  && clients[i].name == name
                  && outcome == (if exists r :: r in s.cfg.rules && r.client == name then Conflict
                                 else if saved then Done else SaveFailed)
                  && s'.cfg.clients == if outcome.Conflict? then clients else clients[..i] + clients[i + 1..])
  {
    i := ClientIndex(s.cfg.clients, name);
  }

  /** Notification settings: the notifier never differs from them, and an unknown format is refused, or
      means the generic one where there is no address. */
  lemma SetNotifyMeans(env: Env, s: State, url: string, format: string, saved: bool)
    requires s.notifier.url == s.cfg.notifyUrl
    requires s.notifier.format
          == if s.cfg.notifyFormat in {"dingtalk", "feishu"} then s.cfg.notifyFormat else "generic"
    ensures var (s', outcome) := Do(env, s, SetNotify(url, format, saved));
            && outcome == (if url != "" && format != "dingtalk" && format != "feishu" && format != "generic"
                           then Invalid else if saved then Done else SaveFailed)
            && (if outcome.Done?
                then
                  && s'.cfg == s.cfg.(notifyUrl := url, notifyFormat := format)
                  && s'.notifier == Notifier(url, if format in {"dingtalk", "feishu"} then format else "generic")
                  && s'.net == s.net && s'.blVersion == s.blVersion
                else s' == s)
  {
  }

  /** An import goes through exactly if it is saved and every entry of both imported lists parses and every
      imported rule meets the conditions, its client being among the imported ones; the panel's and the
      network's own fields apart it is then all there is. */
  lemma ImportOutcomeIff(env: Env, s: State, cfg: Config, saved: bool, sched: Schedule)
    ensures var (s', outcome) := Do(env, s, Import(cfg, saved, sched));
            var good := && (forall a :: a in cfg.whitelist || a in cfg.blacklist ==>
                              env.addresses.parsePrefix(a).Some? || env.addresses.parseAddr(a).Some?)
                        && forall r, e :: r in cfg.rules ==> !Violates(env, r, cfg.clients, e);
            && outcome == (if !good then Invalid else if saved then Done else SaveFailed)
            && (outcome.Done? ==> s'.cfg.rules == cfg.rules && s'.cfg.clients == cfg.clients
                                  && s'.cfg.blacklist == cfg.blacklist && s'.cfg.whitelist == cfg.whitelist
                                  && s'.net == Apply(s.net, cfg.rules, sched))
  {
    Acl.InvalidIff(env.addresses, cfg.whitelist);
    Acl.InvalidIff(env.addresses, cfg.blacklist);
    assert forall a :: Acl.Parses(env.addresses, a)
                       <==> env.addresses.parsePrefix(a).Some? || env.addresses.parseAddr(a).Some?;
  }

  // ---- operations that undo each other ----

  /** A rule that was added under an unused id and is deleted again leaves the configuration as it was. */
  lemma DeleteUndoesAdd(env: Env, s: State, r: Rule, id: Id, sched: Schedule, saved: bool)
    requires Do(env, s, AddRule(r, id, true, sched)).1.Done? && forall x :: x in s.cfg.rules ==> x.id != id
    ensures var s' := Do(env, s, AddRule(r, id, true, sched)).0;
            Do(env, s', DeleteRule(id, saved)).0.cfg == s.cfg
  {
    AddedIsFound(s.cfg.rules, r.(id := id, enabled := true));
  }

  lemma AddedIsFound(rules: seq<Rule>, r: Rule)
    requires forall x :: x in rules ==> x.id != r.id
    ensures IndexOf(rules + [r], r.id) == |rules| && Without(rules + [r], |rules|) == rules
  {
    assert (rules + [r])[|rules|] == r;
    assert forall j :: 0 <= j < |rules| ==> (rules + [r])[j] in rules;
  }

  /** So does switching a rule twice, back to what it was. */
  lemma SwitchingBackRestores(env: Env, s: State, id: Id, on: bool, there: Schedule, back: Schedule)
    requires IndexOf(s.cfg.rules, id) >= 0 && s.cfg.rules[IndexOf(s.cfg.rules, id)].enabled != on
    ensures var s' := Do(env, s, SetRuleEnabled(id, on, true, there)).0;
            Do(env, s', SetRuleEnabled(id, !on, true, back)).0.cfg == s.cfg
  {
    var i, s' := IndexOf(s.cfg.rules, id), Do(env, s, SetRuleEnabled(id, on, true, there)).0;
    SameIndex(s.cfg.rules, s'.cfg.rules, id);
    assert s'.cfg.rules[i := s'.cfg.rules[i].(enabled := !on)] == s.cfg.rules;
  }

  lemma SameIndex(rules: seq<Rule>, rules': seq<Rule>, id: Id)
    requires |rules'| == |rules| && forall j :: 0 <= j < |rules| ==> rules'[j].id == rules[j].id
    ensures IndexOf(rules', id) == IndexOf(rules, id)
  {
  }

  /** And updating a rule twice, back to what it was, if its old version still passes the checks. */
  lemma UpdatingBackRestores(env: Env, s: State, id: Id, nr: Rule, there: Schedule, back: Schedule)
    requires IndexOf(s.cfg.rules, id) >= 0 && Do(env, s, UpdateRule(id, nr, true, there)).1.Done?
    ensures var s', was := Do(env, s, UpdateRule(id, nr, true, there)).0, s.cfg.rules[IndexOf(s.cfg.rules, id)];
            Do(env, s', UpdateRule(id, was, true, back)).1.Done?
            ==> Do(env, s', UpdateRule(id, was, true, back)).0.cfg == s.cfg
  {
    var i, s' := IndexOf(s.cfg.rules, id), Do(env, s, UpdateRule(id, nr, true, there)).0;
    SameIndex(s.cfg.rules, s'.cfg.rules, id);
    assert s'.cfg.rules[i := s.cfg.rules[i]] == s.cfg.rules;
  }
}
