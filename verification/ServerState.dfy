/** The server's configuration state and every operation that changes rules, clients, notification
    settings or the blacklist (server/state.go), as functions from state to state. The outcome of
    saving, the fresh id and the reconciler's schedule come from the environment. */
module ServerState {
  import opened Streams
  import opened Rules
  import opened Reconciler
  import Acl

  /** `identity` stands for the fields that an import never touches: listen addresses, panel prefix,
      session secret and TLS settings. */
  datatype Config = Config(rules: seq<Rule>, clients: seq<ClientUser>, whitelist: seq<string>, blacklist: seq<string>,
                           notifyUrl: string, notifyFormat: string, password: string, noAuth: bool, logFile: string,
                           identity: seq<string>)

  datatype Notifier = Notifier(url: string, format: string)

  datatype State = State(cfg: Config, net: Net, notifier: Notifier, blVersion: nat)

  datatype Outcome = Done | NotFound | Conflict | Invalid | SaveFailed

  datatype Op =
    | Boot(sched: Schedule)
    | AddRule(rule: Rule, id: Id, saved: bool, sched: Schedule)
    | UpdateRule(id: Id, rule: Rule, saved: bool, sched: Schedule)
    | DeleteRule(id: Id, saved: bool)
    | SetRuleEnabled(id: Id, on: bool, saved: bool, sched: Schedule)
    | AddClient(user: ClientUser, saved: bool)
    | DeleteClient(name: string, saved: bool)
    | SetBlacklist(entries: seq<string>, saved: bool)
    | SetNotify(url: string, format: string, saved: bool)
    | Import(cfg: Config, saved: bool, sched: Schedule)

  /** notifier.set: an unknown format means generic. */
  function Normal(url: string, format: string): Notifier {
    Notifier(url, if format == "dingtalk" || format == "feishu" then format else "generic")
  }

  /** Where a key comes first, or -1. */
  function FirstAt(keys: seq<string>, key: string): (i: int)
    ensures -1 <= i < |keys|
    ensures i >= 0 ==> keys[i] == key && forall j :: 0 <= j < i ==> keys[j] != key
    ensures i < 0 ==> key !in keys
  {
    if keys == [] then -1
    else if keys[0] == key then 0
    else
      var i := FirstAt(keys[1..], key);
      if i < 0 then -1 else i + 1
  }

  function IndexOf(rules: seq<Rule>, id: Id): (i: int)
    ensures -1 <= i < |rules|
    ensures i >= 0 ==> rules[i].id == id && forall j :: 0 <= j < i ==> rules[j].id != id
    ensures i < 0 ==> forall j :: 0 <= j < |rules| ==> rules[j].id != id
  {
    var ids := seq(|rules|, i requires 0 <= i < |rules| => rules[i].id);
    assert forall j :: 0 <= j < |rules| ==> ids[j] == rules[j].id;
    FirstAt(ids, id)
  }

  function ClientIndex(clients: seq<ClientUser>, name: string): (i: int)
    ensures -1 <= i < |clients|
    ensures i >= 0 ==> clients[i].name == name && forall j :: 0 <= j < i ==> clients[j].name != name
    ensures i < 0 ==> forall j :: 0 <= j < |clients| ==> clients[j].name != name
  {
    var names := seq(|clients|, i requires 0 <= i < |clients| => clients[i].name);
    assert forall j :: 0 <= j < |clients| ==> names[j] == clients[j].name;
    FirstAt(names, name)
  }

  function Without<T>(s: seq<T>, i: nat): seq<T>
    requires i < |s|
  {
    s[..i] + s[i + 1..]
  }

  function WithRules(s: State, rules: seq<Rule>): State {
    s.(cfg := s.cfg.(rules := rules))
  }

  /** Store the rules and reconcile, or leave everything as it was when saving fails. */
  function Commit(s: State, rules: seq<Rule>, saved: bool, sched: Schedule): (State, Outcome) {
    if saved then (WithRules(s, rules).(net := Apply(s.net, rules, sched)), Done) else (s, SaveFailed)
  }

  ghost function DoAdd(env: Env, s: State, r: Rule, id: Id, saved: bool, sched: Schedule): (State, Outcome) {
    if !WellFormed(env, r, s.cfg.clients) then (s, Invalid)
    else if PortTaken(s.cfg.rules, -1, r, "") then (s, Conflict)
    else Commit(s, s.cfg.rules + [r.(id := id, enabled := true)], saved, sched)
  }

  ghost function DoUpdate(env: Env, s: State, id: Id, nr: Rule, saved: bool, sched: Schedule): (State, Outcome) {
    var i := IndexOf(s.cfg.rules, id);
    if i < 0 then (s, NotFound)
    else
      var r := nr.(id := id, enabled := s.cfg.rules[i].enabled);
      if !WellFormed(env, r, s.cfg.clients) then (s, Invalid)
      else if PortTaken(s.cfg.rules, i, r, id) then (s, Conflict)
      else Commit(s, s.cfg.rules[i := r], saved, sched)
  }

  /** A deletion takes effect at once and is not taken back when saving fails. */
  function DoDelete(s: State, id: Id, saved: bool): (State, Outcome) {
    var i := IndexOf(s.cfg.rules, id);
    if i < 0 then (s, NotFound)
    else (WithRules(s, Without(s.cfg.rules, i)).(net := Stop(s.net, id)), if saved then Done else SaveFailed)
  }

  function DoSetEnabled(s: State, id: Id, on: bool, saved: bool, sched: Schedule): (State, Outcome) {
    var i := IndexOf(s.cfg.rules, id);
    if i < 0 then (s, NotFound)
    else Commit(s, s.cfg.rules[i := s.cfg.rules[i].(enabled := on)], saved, sched)
  }

  function DoAddClient(s: State, user: ClientUser, saved: bool): (State, Outcome) {
    if user.name == "" then (s, Invalid)
    else if Registered(s.cfg.clients, user.name) then (s, Conflict)
    else (s.(cfg := s.cfg.(clients := s.cfg.clients + [user])), if saved then Done else SaveFailed)
  }

  function DoDeleteClient(s: State, name: string, saved: bool): (State, Outcome) {
    var i := ClientIndex(s.cfg.clients, name);
    if i < 0 then (s, NotFound)
    else if exists r :: r in s.cfg.rules && r.client == name then (s, Conflict)
    else (s.(cfg := s.cfg.(clients := Without(s.cfg.clients, i))), if saved then Done else SaveFailed)
  }

  function DoSetBlacklist(env: Env, s: State, entries: seq<string>, saved: bool): (State, Outcome) {
    if Acl.NewAcl(env.addresses, entries).Invalid? then (s, Invalid)
    else if !saved then (s, SaveFailed)
    else (s.(cfg := s.cfg.(blacklist := entries), blVersion := s.blVersion + 1), Done)
  }

  function DoSetNotify(s: State, url: string, format: string, saved: bool): (State, Outcome) {
    if url != "" && format !in {"dingtalk", "feishu", "generic"} then (s, Invalid)
    else if !saved then (s.(notifier := Normal(s.cfg.notifyUrl, s.cfg.notifyFormat)), SaveFailed)
    else (s.(cfg := s.cfg.(notifyUrl := url, notifyFormat := format), notifier := Normal(url, format)), Done)
  }

  /** The checks of an import, on the imported lists. */
  ghost predicate Acceptable(env: Env, whitelist: seq<string>, blacklist: seq<string>, rules: seq<Rule>,
                             clients: seq<ClientUser>) {
    && !Acl.NewAcl(env.addresses, whitelist).Invalid?
    && !Acl.NewAcl(env.addresses, blacklist).Invalid?
    && forall r :: r in rules ==> WellFormed(env, r, clients)
  }

  ghost predicate Importable(env: Env, cfg: Config) {
    Acceptable(env, cfg.whitelist, cfg.blacklist, cfg.rules, cfg.clients)
  }

  /** An import replaces everything but the network identity, and does not touch the version. */
  function Imported(s: State, cfg: Config, sched: Schedule): State {
    State(cfg.(identity := s.cfg.identity), Apply(s.net, cfg.rules, sched), Normal(cfg.notifyUrl, cfg.notifyFormat),
      s.blVersion)
  }

  ghost function DoImport(env: Env, s: State, cfg: Config, saved: bool, sched: Schedule): (State, Outcome) {
    var restored := s.(notifier := Normal(s.cfg.notifyUrl, s.cfg.notifyFormat));
    if !Importable(env, cfg) then (restored, Invalid)
    else if !saved then (restored, SaveFailed)
    else (Imported(s, cfg, sched), Done)
  }

  ghost function Do(env: Env, s: State, op: Op): (State, Outcome) {
    match op
    case Boot(sched) => (s.(net := Apply(s.net, s.cfg.rules, sched)), Done)
    case AddRule(r, id, saved, sched) => DoAdd(env, s, r, id, saved, sched)
    case UpdateRule(id, r, saved, sched) => DoUpdate(env, s, id, r, saved, sched)
    case DeleteRule(id, saved) => DoDelete(s, id, saved)
    case SetRuleEnabled(id, on, saved, sched) => DoSetEnabled(s, id, on, saved, sched)
    case AddClient(user, saved) => DoAddClient(s, user, saved)
    case DeleteClient(name, saved) => DoDeleteClient(s, name, saved)
    case SetBlacklist(entries, saved) => DoSetBlacklist(env, s, entries, saved)
    case SetNotify(url, format, saved) => DoSetNotify(s, url, format, saved)
    case Import(cfg, saved, sched) => DoImport(env, s, cfg, saved, sched)
  }

  predicate Reconciles(op: Op) {
    op.Boot? || op.AddRule? || op.UpdateRule? || op.SetRuleEnabled? || op.Import?
  }

  /** If the operation gets as far as reconciling, its schedule visits every key once. */
  ghost predicate Legal(env: Env, s: State, op: Op) {
    Reconciles(op) && Do(env, s, op).1.Done? ==> Covers(s.net, Do(env, s, op).0.cfg.rules, op.sched)
  }

  ghost predicate Run(env: Env, s: State, ops: seq<Op>)
    decreases |ops|
  {
    ops == [] || (Legal(env, s, ops[0]) && Run(env, Do(env, s, ops[0]).0, ops[1..]))
  }

  ghost function After(env: Env, s: State, ops: seq<Op>): State
    decreases |ops|
  {
    if ops == [] then s else After(env, Do(env, s, ops[0]).0, ops[1..])
  }

  /** A server that has just read its configuration. */
  function Started(cfg: Config): State {
    State(cfg, Net(map[], [], []), Normal(cfg.notifyUrl, cfg.notifyFormat), 0)
  }

  // ---- what every operation keeps ----

  /** Every runner belongs to a rule to run, and has its protocol, port, target and client. */
  ghost predicate RunnersFollowRules(s: State) {
    forall id :: id in s.net.runners ==>
        var rn, d := s.net.runners[id], Desired(s.cfg.rules);
        id in d && rn.proto == d[id].proto && rn.listen == d[id].listen && rn.target == d[id].target
        && rn.client == d[id].client
  }

  ghost predicate RulesAreWellFormed(env: Env, cfg: Config) {
    forall r :: r in cfg.rules ==> WellFormed(env, r, cfg.clients)
  }

  /** What holds whatever configuration the server was started with. */
  ghost predicate Live(s: State) {
    && Conserved(s.net)
    && RunnersFollowRules(s)
    && s.notifier == Normal(s.cfg.notifyUrl, s.cfg.notifyFormat)
  }

  lemma {:induction false} DesiredOfConcat(p: seq<Rule>, q: seq<Rule>)
    ensures Desired(p + q) == Desired(p) + Desired(q)
  {
    if q == [] {
      assert p + q == p;
    } else {
      assert (p + q)[..|p + q| - 1] == p + q[..|q| - 1];
      DesiredOfConcat(p, q[..|q| - 1]);
    }
  }

  lemma DesiredWithout(rules: seq<Rule>, i: nat, id: Id)
    requires i < |rules| && rules[i].id != id
    ensures id in Desired(Without(rules, i)) <==> id in Desired(rules)
    ensures id in Desired(rules) ==> Desired(Without(rules, i))[id] == Desired(rules)[id]
  {
    SplitAt(rules, i);
    DesiredOfSplit(rules, Without(rules, i), rules[..i], rules[i], rules[i + 1..], id);
  }

  lemma SplitAt<T>(s: seq<T>, i: nat)
    requires i < |s|
    ensures s == s[..i] + [s[i]] + s[i + 1..]
  {
  }

  lemma DesiredOfSplit(rules: seq<Rule>, rest: seq<Rule>, p: seq<Rule>, r: Rule, q: seq<Rule>, id: Id)
    requires rules == p + [r] + q && rest == p + q && r.id != id
    ensures id in Desired(rest) <==> id in Desired(rules)
    ensures id in Desired(rules) ==> Desired(rest)[id] == Desired(rules)[id]
  {
    DesiredOfConcat(p, q);
    DesiredOfConcat(p + [r], q);
    DesiredOfLast(p, r, id);
    MergeAt(Desired(p), Desired(p + [r]), Desired(q), id);
  }

  lemma MergeAt(m: map<Id, Rule>, n: map<Id, Rule>, k: map<Id, Rule>, id: Id)
    requires (id in m <==> id in n) && (id in m ==> m[id] == n[id])
    ensures (id in m + k <==> id in n + k) && (id in m + k ==> (m + k)[id] == (n + k)[id])
  {
  }

  lemma DesiredOfLast(p: seq<Rule>, r: Rule, id: Id)
    requires r.id != id
    ensures id in Desired(p + [r]) <==> id in Desired(p)
    ensures id in Desired(p) ==> Desired(p + [r])[id] == Desired(p)[id]
  {
    assert (p + [r])[..|p|] == p;
  }

  lemma ApplyKeepsFollowing(s: State, rules: seq<Rule>, sched: Schedule)
    requires Conserved(s.net) && Covers(s.net, rules, sched)
    ensures var s' := WithRules(s, rules).(net := Apply(s.net, rules, sched));
            Conserved(s'.net) && RunnersFollowRules(s')
  {
    ApplyConserves(s.net, rules, sched);
    ApplyReconciles(s.net, rules, sched);
  }

  lemma DeleteKeepsLive(s: State, id: Id, saved: bool)
    requires Live(s)
    ensures Live(DoDelete(s, id, saved).0)
  {
    var i := IndexOf(s.cfg.rules, id);
    if i >= 0 {
      var s' := DoDelete(s, id, saved).0;
      StopConserves(s.net, id);
      forall j | j in s'.net.runners
        ensures j in Desired(s'.cfg.rules) && SameAs(s'.net.runners[j], Desired(s'.cfg.rules)[j])
      {
        DesiredWithout(s.cfg.rules, i, j);
      }
    }
  }

  lemma ClientsMayGrow(env: Env, r: Rule, clients: seq<ClientUser>, user: ClientUser)
    requires WellFormed(env, r, clients)
    ensures WellFormed(env, r, clients + [user])
  {
    forall e ensures !Violates(env, r, clients + [user], e) {
      assert !Violates(env, r, clients, e);
      if e.UnknownClient? && r.client != "" {
        var c :| c in clients && c.name == r.client;
        assert c in clients + [user];
      }
    }
  }

  lemma ClientsMayShrink(env: Env, r: Rule, clients: seq<ClientUser>, i: nat)
    requires WellFormed(env, r, clients) && i < |clients| && clients[i].name != r.client
    ensures WellFormed(env, r, Without(clients, i))
  {
    forall e ensures !Violates(env, r, Without(clients, i), e) {
      assert !Violates(env, r, clients, e);
      if e.UnknownClient? && r.client != "" {
        var c :| c in clients && c.name == r.client;
        assert clients == clients[..i] + [clients[i]] + clients[i + 1..];
        assert c in Without(clients, i);
      }
    }
  }

  /** Switching a rule on or off and giving it an id leave it as well-formed as it was. */
  lemma WellFormedIgnores(env: Env, r: Rule, clients: seq<ClientUser>, id: Id, on: bool)
    requires WellFormed(env, r, clients)
    ensures WellFormed(env, r.(id := id, enabled := on), clients)
  {
    forall e ensures !Violates(env, r.(id := id, enabled := on), clients, e) {
      assert !Violates(env, r, clients, e);
    }
  }

  lemma ClientOpsKeepWellFormed(env: Env, s: State, op: Op)
    requires RulesAreWellFormed(env, s.cfg) && (op.AddClient? || op.DeleteClient?)
    ensures RulesAreWellFormed(env, Do(env, s, op).0.cfg)
  {
    var s' := Do(env, s, op).0;
    if s'.cfg.clients != s.cfg.clients {
      forall r | r in s.cfg.rules ensures WellFormed(env, r, s'.cfg.clients) {
        if op.AddClient? {
          ClientsMayGrow(env, r, s.cfg.clients, op.user);
        } else {
          ClientsMayShrink(env, r, s.cfg.clients, ClientIndex(s.cfg.clients, op.name));
        }
      }
    }
  }

  lemma RuleOpsKeepWellFormed(env: Env, s: State, op: Op)
    requires RulesAreWellFormed(env, s.cfg) && !op.AddClient? && !op.DeleteClient?
    ensures RulesAreWellFormed(env, Do(env, s, op).0.cfg)
  {
    var (s', outcome) := Do(env, s, op);
    match op
    case AddRule(r, id, _, _) =>
      if outcome.Done? {
        WellFormedIgnores(env, r, s.cfg.clients, id, true);
      }
    case SetRuleEnabled(id, on, _, _) =>
      if outcome.Done? {
        WellFormedIgnores(env, s.cfg.rules[IndexOf(s.cfg.rules, id)], s.cfg.clients, id, on);
      }
    case _ =>
  }

  lemma OpKeepsWellFormed(env: Env, s: State, op: Op)
    requires RulesAreWellFormed(env, s.cfg)
    ensures RulesAreWellFormed(env, Do(env, s, op).0.cfg)
  {
    if op.AddClient? || op.DeleteClient? {
      ClientOpsKeepWellFormed(env, s, op);
    } else {
      RuleOpsKeepWellFormed(env, s, op);
    }
  }

  lemma OpKeepsLive(env: Env, s: State, op: Op)
    requires Live(s) && Legal(env, s, op)
    ensures Live(Do(env, s, op).0)
  {
    var (s', outcome) := Do(env, s, op);
    if Reconciles(op) && outcome.Done? {
      ApplyKeepsFollowing(s, s'.cfg.rules, op.sched);
    } else if op.DeleteRule? {
      DeleteKeepsLive(s, op.id, op.saved);
    }
  }

  lemma {:induction false} RunKeepsLive(env: Env, s: State, ops: seq<Op>)
    requires Live(s) && Run(env, s, ops)
    ensures Live(After(env, s, ops))
    decreases |ops|
  {
    if ops != [] {
      OpKeepsLive(env, s, ops[0]);
      RunKeepsLive(env, Do(env, s, ops[0]).0, ops[1..]);
    }
  }

  lemma {:induction false} RunKeepsWellFormed(env: Env, s: State, ops: seq<Op>)
    requires RulesAreWellFormed(env, s.cfg)
    ensures RulesAreWellFormed(env, After(env, s, ops).cfg)
    decreases |ops|
  {
    if ops != [] {
      OpKeepsWellFormed(env, s, ops[0]);
      RunKeepsWellFormed(env, Do(env, s, ops[0]).0, ops[1..]);
    }
  }

  /** In every state that any run of operations, imports included, reaches from any configuration
      whatever: every listener ever opened is owned by exactly one runner or has been stopped exactly
      once; every runner matches an enabled server-side rule; and the notifier agrees with the
      configuration. If the rules the server was started with pass the check, which reading the file
      does not make sure of, then every stored rule still does, so none names an unregistered client. */
  lemma ReachableStatesAreSound(env: Env, cfg: Config, ops: seq<Op>)
    requires Run(env, Started(cfg), ops)
    ensures var s := After(env, Started(cfg), ops);
            && Conserved(s.net) && RunnersFollowRules(s)
            && s.notifier == Normal(s.cfg.notifyUrl, s.cfg.notifyFormat)
            && (RulesAreWellFormed(env, cfg) ==>
                  && RulesAreWellFormed(env, s.cfg)
                  && forall r :: r in s.cfg.rules && r.client != "" ==> Registered(s.cfg.clients, r.client))
  {
    RunKeepsLive(env, Started(cfg), ops);
    var s := After(env, Started(cfg), ops);
    if RulesAreWellFormed(env, cfg) {
      RunKeepsWellFormed(env, Started(cfg), ops);
      forall r | r in s.cfg.rules && r.client != "" ensures Registered(s.cfg.clients, r.client) {
        assert !Violates(env, r, s.cfg.clients, UnknownClient);
      }
    }
  }

  // ---- all or nothing ----

  predicate RollsBack(op: Op) {
    !op.Boot? && !op.DeleteRule? && !op.AddClient? && !op.DeleteClient?
  }

  /** An operation that is turned down changes nothing. When only saving fails, the operation leaves
      the state as it was exactly if it is one of those that roll back: deleting a rule, adding a
      client and deleting a client stay in effect in memory although an error is returned. */
  lemma FailureIsRolledBackIff(env: Env, s: State, op: Op)
    requires Live(s)
    ensures var (s', outcome) := Do(env, s, op);
            && (!outcome.Done? && !outcome.SaveFailed? ==> s' == s)
            && (outcome.SaveFailed? ==> (s' == s <==> RollsBack(op)))
  {
    var (s', outcome) := Do(env, s, op);
    match op
    case DeleteRule(id, _) => assert outcome.SaveFailed? ==> |s'.cfg.rules| < |s.cfg.rules|;
    case AddClient(_, _) => assert outcome.SaveFailed? ==> |s'.cfg.clients| > |s.cfg.clients|;
    case DeleteClient(_, _) => assert outcome.SaveFailed? ==> |s'.cfg.clients| < |s.cfg.clients|;
    case _ =>
  }

  /** An import either takes over everything but the network identity, with every rule checked
      against the imported clients, or leaves configuration, runners and notifier as they were. */
  lemma ImportIsAllOrNothing(env: Env, s: State, cfg: Config, saved: bool, sched: Schedule)
    requires Live(s)
    ensures var (s', outcome) := Do(env, s, Import(cfg, saved, sched));
            && (outcome.Done? <==> Importable(env, cfg) && saved)
            && (outcome.Done? ==>
                  && s'.cfg.identity == s.cfg.identity && s'.cfg == cfg.(identity := s.cfg.identity)
                  && s'.notifier == Normal(cfg.notifyUrl, cfg.notifyFormat) && s'.blVersion == s.blVersion)
            && (!outcome.Done? ==> s' == s)
  {
  }

  // ---- ports ----

  /** No two rules of a configuration want one port at one place. */
  ghost predicate PortsApart(rules: seq<Rule>) {
    forall a, b :: a in rules && b in rules && a.id != b.id && a.listen == b.listen ==> !SamePlace(a, b)
  }

  ghost predicate IdsGood(rules: seq<Rule>) {
    && (forall r :: r in rules ==> r.id != "")
    && forall i, j :: 0 <= i < j < |rules| ==> rules[i].id != rules[j].id
  }

  /** Operations that keep the port discipline: all but importing; a new rule gets an unused id. */
  ghost predicate Disciplined(s: State, op: Op) {
    && !op.Import?
    && (op.AddRule? ==> op.id != "" && forall r :: r in s.cfg.rules ==> r.id != op.id)
  }

  /** `after` is `before` with the rules of one id added, dropped or replaced. */
  ghost predicate DiffersAt(before: seq<Rule>, after: seq<Rule>, id: Id) {
    && (forall r :: r in after && r.id != id ==> r in before)
    && (forall r :: r in before && r.id != id ==> r in after)
  }

  lemma AddedRuleIsApart(rules: seq<Rule>, r: Rule, nr: Rule)
    requires PortsApart(rules) && IdsGood(rules) && !PortTaken(rules, -1, r, "")
    requires nr.id != "" && (forall x :: x in rules ==> x.id != nr.id)
    requires nr.listen == r.listen && nr.side == r.side && nr.client == r.client
    ensures PortsApart(rules + [nr]) && IdsGood(rules + [nr]) && DiffersAt(rules, rules + [nr], nr.id)
  {
    forall x | x in rules && x.listen == nr.listen ensures !SamePlace(nr, x) && !SamePlace(x, nr) {
      var i :| 0 <= i < |rules| && rules[i] == x;
      assert !Conflicts(rules, i, -1, r, "");
    }
  }

  lemma ReplacedRuleIsApart(rules: seq<Rule>, i: nat, nr: Rule)
    requires PortsApart(rules) && IdsGood(rules) && i < |rules| && nr.id == rules[i].id
    requires !PortTaken(rules, i, nr, nr.id)
    ensures PortsApart(rules[i := nr]) && IdsGood(rules[i := nr]) && DiffersAt(rules, rules[i := nr], nr.id)
  {
    var rules' := rules[i := nr];
    forall x | x in rules' && x.id != nr.id
      ensures x in rules && (x.listen == nr.listen ==> !SamePlace(nr, x) && !SamePlace(x, nr))
    {
      var j :| 0 <= j < |rules'| && rules'[j] == x;
      assert rules[j] == x && !Conflicts(rules, j, i, nr, nr.id);
    }
    forall x | x in rules && x.id != nr.id ensures x in rules' {
      var j :| 0 <= j < |rules| && rules[j] == x;
      assert rules'[j] == x;
    }
  }

  lemma SwitchedRuleIsApart(rules: seq<Rule>, i: nat, on: bool)
    requires PortsApart(rules) && IdsGood(rules) && i < |rules|
    ensures var rules' := rules[i := rules[i].(enabled := on)];
            PortsApart(rules') && IdsGood(rules') && DiffersAt(rules, rules', rules[i].id)
  {
    var nr := rules[i].(enabled := on);
    forall j: nat | j < |rules| ensures !Conflicts(rules, j, i, nr, nr.id) {
      if rules[j].id != nr.id {
        assert rules[j] in rules && rules[i] in rules;
      }
    }
    ReplacedRuleIsApart(rules, i, nr);
  }

  lemma DroppedRuleIsApart(rules: seq<Rule>, i: nat)
    requires PortsApart(rules) && IdsGood(rules) && i < |rules|
    ensures PortsApart(Without(rules, i)) && IdsGood(Without(rules, i))
  {
    assert forall r :: r in Without(rules, i) ==> r in rules;
  }

  /** Rules of one configuration that want one port never belong to two ids. */
  lemma OnePortOneId(rules: seq<Rule>, a: Rule, b: Rule)
    requires PortsApart(rules) && a in rules && b in rules && Wanted(a) && Wanted(b) && a.listen == b.listen
    ensures a.id == b.id
  {
    assert SamePlace(a, b);
  }

  /** With runners that follow the old rules, a change at one id that keeps ports apart leaves no
      rule to be started with a rival. */
  lemma ChangeAtOneIdHasNoRivals(s: State, rules: seq<Rule>, id: Id)
    requires RunnersFollowRules(s) && PortsApart(s.cfg.rules) && PortsApart(rules) && DiffersAt(s.cfg.rules, rules, id)
    ensures NoRivals(s.net, Desired(rules))
  {
    var d, old' := Desired(rules), Desired(s.cfg.rules);
    forall a, j | a != j && NeedsBind(s.net, d, a) ensures !Rivals(s.net, d, a, j) {
      if j in s.net.runners && s.net.runners[j].listen == d[a].listen {
        assert old'[j] in s.cfg.rules && old'[j].id == j;
        assert j == id || old'[j] in rules;
        assert a == id || d[a] in s.cfg.rules;
        OnePortOneId(if j == id then s.cfg.rules else rules, d[a], old'[j]);
      } else if j in d && d[j].listen == d[a].listen {
        OnePortOneId(rules, d[a], d[j]);
      }
    }
  }

  lemma CommitIsQuiet(s: State, rules: seq<Rule>, id: Id, sched: Schedule)
    requires Conserved(s.net) && RunnersFollowRules(s) && Covers(s.net, rules, sched)
    requires PortsApart(s.cfg.rules) && PortsApart(rules) && DiffersAt(s.cfg.rules, rules, id)
    ensures Quiet(s.net, Apply(s.net, rules, sched))
  {
    ChangeAtOneIdHasNoRivals(s, rules, id);
    ApplyNeverClashesIff(s.net, rules);
  }

  /** A reconciling operation changes the rules at one id, if at all. */
  lemma RuleChangeIsApart(env: Env, s: State, op: Op) returns (id: Id)
    requires PortsApart(s.cfg.rules) && IdsGood(s.cfg.rules) && Disciplined(s, op) && Reconciles(op)
    ensures var rules' := Do(env, s, op).0.cfg.rules;
            PortsApart(rules') && IdsGood(rules') && DiffersAt(s.cfg.rules, rules', id)
  {
    var rules, s' := s.cfg.rules, Do(env, s, op).0;
    id := if op.AddRule? || op.UpdateRule? || op.SetRuleEnabled? then op.id else "";
    if s'.cfg.rules != rules {
      match op
      case AddRule(r, _, _, _) =>
        AddedRuleIsApart(rules, r, r.(id := id, enabled := true));
      case UpdateRule(_, nr, _, _) =>
        var i := IndexOf(rules, id);
        ReplacedRuleIsApart(rules, i, nr.(id := id, enabled := rules[i].enabled));
      case SetRuleEnabled(_, on, _, _) =>
        SwitchedRuleIsApart(rules, IndexOf(rules, id), on);
      case _ =>
    }
  }

  lemma DoneMeansApplied(env: Env, s: State, op: Op)
    requires Reconciles(op) && !op.Import?
    ensures var (s', outcome) := Do(env, s, op);
            s'.net == if outcome.Done? then Apply(s.net, s'.cfg.rules, op.sched) else s.net
  {
  }

  lemma OthersBindNothing(env: Env, s: State, op: Op)
    requires PortsApart(s.cfg.rules) && IdsGood(s.cfg.rules) && !Reconciles(op)
    ensures var s' := Do(env, s, op).0;
            PortsApart(s'.cfg.rules) && IdsGood(s'.cfg.rules) && s'.net.binds == s.net.binds
  {
    if op.DeleteRule? && IndexOf(s.cfg.rules, op.id) >= 0 {
      DroppedRuleIsApart(s.cfg.rules, IndexOf(s.cfg.rules, op.id));
    }
  }

  lemma OpKeepsPortsApart(env: Env, s: State, op: Op)
    requires Live(s) && Legal(env, s, op)
    requires PortsApart(s.cfg.rules) && IdsGood(s.cfg.rules) && Disciplined(s, op)
    ensures var s' := Do(env, s, op).0;
            PortsApart(s'.cfg.rules) && IdsGood(s'.cfg.rules) && Quiet(s.net, s'.net)
  {
    if Reconciles(op) {
      var id := RuleChangeIsApart(env, s, op);
      DoneMeansApplied(env, s, op);
      if Do(env, s, op).1.Done? {
        CommitIsQuiet(s, Do(env, s, op).0.cfg.rules, id, op.sched);
      }
    } else {
      OthersBindNothing(env, s, op);
    }
  }

  ghost predicate DisciplinedRun(env: Env, s: State, ops: seq<Op>)
    decreases |ops|
  {
    ops == [] || (Disciplined(s, ops[0]) && DisciplinedRun(env, Do(env, s, ops[0]).0, ops[1..]))
  }

  lemma QuietThroughout(a: Net, b: Net, c: Net)
    requires Quiet(a, b) && Quiet(b, c)
    ensures Quiet(a, c)
  {
    forall i | |a.binds| <= i < |c.binds| ensures !c.binds[i].clash {
      if i < |b.binds| {
        assert c.binds[i] == b.binds[i];
      }
    }
  }

  /** Port discipline over whole runs: as long as nothing is imported and new ids are new, ports stay
      apart after every operation, and no reconciliation ever tries to bind a port that another of
      the server's own runners holds, whatever the iteration orders and the outcomes of binds and saves. */
  lemma {:induction false} DisciplinedRunsNeverClash(env: Env, s: State, ops: seq<Op>)
    requires Live(s) && Run(env, s, ops) && DisciplinedRun(env, s, ops)
    requires PortsApart(s.cfg.rules) && IdsGood(s.cfg.rules)
    ensures var s' := After(env, s, ops);
            PortsApart(s'.cfg.rules) && IdsGood(s'.cfg.rules) && Quiet(s.net, s'.net)
    decreases |ops|
  {
    if ops != [] {
      var next := Do(env, s, ops[0]).0;
      OpKeepsLive(env, s, ops[0]);
      OpKeepsPortsApart(env, s, ops[0]);
      DisciplinedRunsNeverClash(env, next, ops[1..]);
      QuietThroughout(s.net, next.net, After(env, next, ops[1..]).net);
    }
  }

  ghost predicate ImportIsQuiet(env: Env, s: State, cfg: Config, sched: Schedule) {
    Legal(env, s, Import(cfg, true, sched)) ==> Quiet(s.net, Do(env, s, Import(cfg, true, sched)).0.net)
  }

  lemma ImportApplies(env: Env, s: State, cfg: Config, sched: Schedule)
    requires Importable(env, cfg)
    ensures ImportIsQuiet(env, s, cfg, sched)
       <==> (Covers(s.net, cfg.rules, sched) ==> Quiet(s.net, Apply(s.net, cfg.rules, sched)))
  {
  }

  /** An import replaces the rules without looking at ports: it is free of clashes, for every
      iteration order and every outcome of the binds, exactly when no rule to be started has a rival. */
  lemma ImportNeverClashesIff(env: Env, s: State, cfg: Config)
    requires Live(s) && Importable(env, cfg)
    ensures (forall sched :: ImportIsQuiet(env, s, cfg, sched)) <==> NoRivals(s.net, Desired(cfg.rules))
  {
    ApplyNeverClashesIff(s.net, cfg.rules);
    forall sched
      ensures ImportIsQuiet(env, s, cfg, sched)
         <==> (Covers(s.net, cfg.rules, sched) ==> Quiet(s.net, Apply(s.net, cfg.rules, sched)))
    {
      ImportApplies(env, s, cfg, sched);
    }
  }

  /** The configuration may hold a rule that an import moves to another id, keeping its port. */
  function Moving(cfg: Config, r: Rule): Config {
    cfg.(rules := [r])
  }

  lemma OneRuleIsDesired(r: Rule)
    ensures Desired([r]) == if Wanted(r) then map[r.id := r] else map[]
  {
    assert [r][..0] == [];
    assert Desired([]) == map[];
  }

  /** The state of a server that was started with the single rule `a` and has bound it. */
  function Booted(cfg: Config, a: Rule): State {
    Started(Moving(cfg, a)).(net := Net(map[a.id := Runner(0, a.proto, a.listen, a.target, a.client)], [0],
      [Bind(a.id, false)]))
  }

  lemma BootBinds(env: Env, cfg: Config, a: Rule) returns (sched: Schedule)
    requires Wanted(a) && Startable(a)
    ensures Legal(env, Started(Moving(cfg, a)), Boot(sched))
    ensures Do(env, Started(Moving(cfg, a)), Boot(sched)).0 == Booted(cfg, a)
  {
    sched := Schedule(id => true, [a.id], [a.id]);
    OneRuleIsDesired(a);
    var net, d := Net(map[], [], []), Desired([a]);
    assert [a.id][..0] == [];
    assert StartAll(net, d, [], sched.bindOk) == net;
    var net' := StartAll(net, d, [a.id], sched.bindOk);
    assert net' == Renew(net, a.id, a, true);
    assert net'.stops == [0] && net'.binds == [Bind(a.id, false)];
    assert SweepAll(net', d, []) == net';
    assert SweepAll(net', d, [a.id]) == net';
    assert net'.runners.Keys == {a.id};
  }

  lemma ImportableIsStartable(env: Env, cfg: Config, r: Rule)
    requires Importable(env, Moving(cfg, r))
    ensures Startable(r)
  {
    assert r in Moving(cfg, r).rules;
    assert !Violates(env, r, cfg.clients, BadProto);
  }

  lemma OneStepRun(env: Env, s: State, op: Op)
    requires Legal(env, s, op)
    ensures Run(env, s, [op]) && After(env, s, [op]) == Do(env, s, op).0
  {
    var s' := Do(env, s, op).0;
    assert [op][1..] == [];
    assert Run(env, s', []) && After(env, s', []) == s';
  }

  lemma BootedHasRival(cfg: Config, a: Rule, b: Rule)
    requires Wanted(b) && Startable(b) && a.id != b.id && a.proto == b.proto && a.listen == b.listen
    ensures !NoRivals(Booted(cfg, a).net, Desired(Moving(cfg, b).rules))
  {
    OneRuleIsDesired(b);
    assert Rivals(Booted(cfg, a).net, Desired([b]), b.id, a.id);
  }

  /** Such imports exist although every rule passes the check and both configurations keep their ports
      apart: a server that runs rule `a` receives a configuration in which another id has a's port. */
  lemma MovedPortClashes(env: Env, cfg: Config, a: Rule, b: Rule) returns (boot: Schedule, sched: Schedule)
    requires Importable(env, Moving(cfg, a)) && Importable(env, Moving(cfg, b))
    requires Wanted(a) && Wanted(b) && a.id != b.id && a.proto == b.proto && a.listen == b.listen
    ensures PortsApart([a]) && PortsApart([b])
    ensures Run(env, Started(Moving(cfg, a)), [Boot(boot)])
    ensures var s := After(env, Started(Moving(cfg, a)), [Boot(boot)]);
            Live(s) && !ImportIsQuiet(env, s, Moving(cfg, b), sched)
  {
    ImportableIsStartable(env, cfg, a);
    boot := BootBinds(env, cfg, a);
    OneStepRun(env, Started(Moving(cfg, a)), Boot(boot));
    RunKeepsLive(env, Started(Moving(cfg, a)), [Boot(boot)]);
    sched := MovedPortImport(env, cfg, a, b);
  }

  lemma MovedPortImport(env: Env, cfg: Config, a: Rule, b: Rule) returns (sched: Schedule)
    requires Live(Booted(cfg, a)) && Importable(env, Moving(cfg, b))
    requires Wanted(b) && a.id != b.id && a.proto == b.proto && a.listen == b.listen
    ensures !ImportIsQuiet(env, Booted(cfg, a), Moving(cfg, b), sched)
  {
    ImportableIsStartable(env, cfg, b);
    BootedHasRival(cfg, a, b);
    ImportNeverClashesIff(env, Booted(cfg, a), Moving(cfg, b));
    sched :| !ImportIsQuiet(env, Booted(cfg, a), Moving(cfg, b), sched);
  }
}
