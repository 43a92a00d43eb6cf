/** The server object (server/server.go, server/state.go): methods that change the configuration in
    place, reconcile the listeners and roll back, each proved against its function in ServerState.
    `saved` and `bindOk` are what the file system and the network answer. */
module Server {
  import opened Streams
  import opened Rules
  import opened Reconciler
  import opened ServerState
  import Acl
  import Maps
  import Sessions

  class Server {
    const env: Env
    const identity: seq<string>
    var rules: seq<Rule>
    var clients: seq<ClientUser>
    var whitelist: seq<string>
    var blacklist: seq<string>
    var notifyUrl: string
    var notifyFormat: string
    var password: string
    var noAuth: bool
    var logFile: string
    var runners: map<Id, Runner>
    var listeners: nat
    var notifier: Notifier
    var blVersion: nat
    /** The session online under each client's name, and the sessions the server has closed. */
    var sessions: map<string, nat>
    var closed: set<nat>
    /** How often each listener was stopped, and the binds attempted. */
    ghost var stops: seq<nat>
    ghost var binds: seq<Bind>

    ghost function Sockets(): Net
      reads `runners, `stops, `binds
    {
      Net(runners, stops, binds)
    }

    ghost function Settings(): Config
      reads `rules, `clients, `whitelist, `blacklist, `notifyUrl, `notifyFormat, `password, `noAuth, `logFile
    {
      Config(rules, clients, whitelist, blacklist, notifyUrl, notifyFormat, password, noAuth, logFile, identity)
    }

    ghost function View(): State
      reads this
    {
      State(Settings(), Sockets(), notifier, blVersion)
    }

    ghost predicate Valid()
      reads `runners, `stops, `binds, `listeners
    {
      Conserved(Sockets()) && listeners == |stops|
    }

    /** A server that has read its configuration and not yet opened anything. */
    constructor (env: Env, cfg: Config)
      ensures Valid() && this.env == env && View() == Started(cfg)
    {
      this.env, identity := env, cfg.identity;
      rules, clients, whitelist, blacklist := cfg.rules, cfg.clients, cfg.whitelist, cfg.blacklist;
      notifyUrl, notifyFormat, password, noAuth := cfg.notifyUrl, cfg.notifyFormat, cfg.password, cfg.noAuth;
      logFile, runners, listeners, blVersion := cfg.logFile, map[], 0, 0;
      notifier := Normal(cfg.notifyUrl, cfg.notifyFormat);
      sessions, closed, stops, binds := map[], {}, [], [];
    }

    // ---- listeners ----

    method StopRunner(id: Id)
      requires Valid()
      modifies `runners, `stops
      ensures Valid() && Sockets() == Stop(old(Sockets()), id)
    {
      StopConserves(Sockets(), id);
      if id in runners {
        ghost var l := runners[id].listener;
        stops := stops[l := stops[l] + 1];
        runners := runners - {id};
      }
    }

    method StartRule(id: Id, r: Rule, bindOk: bool)
      requires Valid() && id !in runners
      modifies `runners, `stops, `binds, `listeners
      ensures Valid() && Sockets() == Start(old(Sockets()), id, r, bindOk)
    {
      StartConserves(Sockets(), id, r, bindOk);
      if r.proto == "tcp" || r.proto == "udp" {
        binds := binds + [Bind(id, PortHeld(runners, r))];
        if bindOk {
          runners := runners[id := Runner(listeners, r.proto, r.listen, r.target, r.client)];
          listeners := listeners + 1;
          stops := stops + [0];
        }
      }
    }

    /** The first loop's body. */
    method RenewRule(id: Id, r: Rule, bindOk: bool)
      requires Valid()
      modifies `runners, `stops, `binds, `listeners
      ensures Valid() && Sockets() == Renew(old(Sockets()), id, r, bindOk)
    {
      if id in runners {
        var cur := runners[id];
        if cur.proto == r.proto && cur.listen == r.listen && cur.target == r.target && cur.client == r.client {
          return;
        }
      }
      StopConserves(Sockets(), id);
      StopRunner(id);
      StartRule(id, r, bindOk);
    }

    method DesiredRules() returns (desired: map<Id, Rule>)
      ensures desired == Desired(rules)
    {
      desired := map[];
      for i := 0 to |rules|
        invariant desired == Desired(rules[..i])
      {
        assert rules[..i + 1][..i] == rules[..i];
        var r := rules[i];
        if r.enabled && !r.AtClient() {
          desired := desired[r.id := r];
        }
      }
      assert rules[..|rules|] == rules;
    }

    method ApplyRulesLocked(bindOk: Id -> bool) returns (ghost sched: Schedule)
      requires Valid()
      modifies `runners, `stops, `binds, `listeners
      ensures Valid() && sched.bindOk == bindOk
      ensures Covers(old(Sockets()), rules, sched) && Sockets() == Apply(old(Sockets()), rules, sched)
      ensures forall id :: id in runners ==>
                var rn, d := runners[id], Desired(rules);
                id in d && rn.proto == d[id].proto && rn.listen == d[id].listen && rn.target == d[id].target
                && rn.client == d[id].client
      ensures forall id :: id in old(runners) ==>
                var rn, d := old(runners)[id], Desired(rules);
                rn.listener < |stops|
                && (id in runners && runners[id] == rn && stops[rn.listener] == 0
                    <==> id in d && rn.proto == d[id].proto && rn.listen == d[id].listen && rn.target == d[id].target
                         && rn.client == d[id].client)
    {
      ghost var was := Sockets();
      var desired := DesiredRules();
      ghost var starts := StartDesired(desired, bindOk);
      ghost var sweeps := SweepUndesired(desired);
      sched := Schedule(bindOk, starts, sweeps);
      ApplyReconciles(was, rules, sched);
    }

    method StartDesired(desired: map<Id, Rule>, bindOk: Id -> bool) returns (ghost order: seq<Id>)
      requires Valid()
      modifies `runners, `stops, `binds, `listeners
      ensures Valid() && IsOrderOf(order, desired.Keys)
      ensures Sockets() == StartAll(old(Sockets()), desired, order, bindOk)
    {
      var todo := desired.Keys;
      order := [];
      while todo != {}
        invariant Valid() && todo <= desired.Keys && IsOrderOf(order, desired.Keys - todo)
        invariant Sockets() == StartAll(old(Sockets()), desired, order, bindOk)
      {
        var id := Maps.AnyOf(todo);
        OrderWithLast(order, id, desired.Keys, todo);
        todo := todo - {id};
        RenewRule(id, desired[id], bindOk(id));
        assert (order + [id])[..|order|] == order;
        order := order + [id];
      }
    }

    method SweepUndesired(desired: map<Id, Rule>) returns (ghost order: seq<Id>)
      requires Valid()
      modifies `runners, `stops
      ensures Valid() && IsOrderOf(order, old(runners).Keys)
      ensures Sockets() == SweepAll(old(Sockets()), desired, order)
    {
      var todo := runners.Keys;
      order := [];
      while todo != {}
        invariant Valid() && todo <= old(runners).Keys && IsOrderOf(order, old(runners).Keys - todo)
        invariant Sockets() == SweepAll(old(Sockets()), desired, order)
      {
        var id := Maps.AnyOf(todo);
        OrderWithLast(order, id, old(runners).Keys, todo);
        todo := todo - {id};
        if id !in desired {
          StopRunner(id);
        }
        assert (order + [id])[..|order|] == order;
        order := order + [id];
      }
    }

    // ---- rules ----

    /** The common end of the operations on one rule: save, then reconcile or take the change back. */
    method SaveAndApply(undone: seq<Rule>, saved: bool, bindOk: Id -> bool)
      returns (outcome: Outcome, ghost sched: Schedule)
      requires Valid()
      modifies `rules, `runners, `stops, `binds, `listeners
      ensures Valid() && (View(), outcome) == Commit(WithRules(old(View()), undone), old(rules), saved, sched)
      ensures outcome.Done? ==> sched.bindOk == bindOk && Covers(old(Sockets()), rules, sched)
    {
      if !saved {
        rules := undone;
        return SaveFailed, Schedule(bindOk, [], []);
      }
      sched := ApplyRulesLocked(bindOk);
      return Done, sched;
    }

    method Boot(bindOk: Id -> bool) returns (ghost sched: Schedule)
      requires Valid()
      modifies `runners, `stops, `binds, `listeners
      ensures Valid() && sched.bindOk == bindOk && Legal(env, old(View()), ServerState.Boot(sched))
      ensures View() == Do(env, old(View()), ServerState.Boot(sched)).0
    {
      sched := ApplyRulesLocked(bindOk);
    }

    method AddRule(r: Rule, id: Id, saved: bool, bindOk: Id -> bool) returns (outcome: Outcome, ghost sched: Schedule)
      requires Valid()
      modifies `rules, `runners, `stops, `binds, `listeners
      ensures Valid() && (View(), outcome) == DoAdd(env, old(View()), r, id, saved, sched)
      ensures outcome.Done? ==> sched.bindOk == bindOk && Covers(old(Sockets()), rules, sched)
    {
      sched := Schedule(bindOk, [], []);
      var e := ValidateRule(env, r, clients);
      if e.Some? { return Invalid, sched; }
      var cur := PortConflict(rules, -1, r, "");
      if cur.Some? { return Conflict, sched; }
      rules := rules + [r.(id := id, enabled := true)];
      outcome, sched := SaveAndApply(rules[..|rules| - 1], saved, bindOk);
    }

    method FindRule(id: Id) returns (i: int)
      ensures i == IndexOf(rules, id)
    {
      for k := 0 to |rules|
        invariant forall j :: 0 <= j < k ==> rules[j].id != id
      {
        if rules[k].id == id { return k; }
      }
      return -1;
    }

    method UpdateRule(id: Id, nr: Rule, saved: bool, bindOk: Id -> bool)
      returns (outcome: Outcome, ghost sched: Schedule)
      requires Valid()
      modifies `rules, `runners, `stops, `binds, `listeners
      ensures Valid() && (View(), outcome) == DoUpdate(env, old(View()), id, nr, saved, sched)
      ensures outcome.Done? ==> sched.bindOk == bindOk && Covers(old(Sockets()), rules, sched)
    {
      sched := Schedule(bindOk, [], []);
      var i := FindRule(id);
      if i < 0 { return NotFound, sched; }
      var before := rules[i];
      var r := nr.(id := id, enabled := before.enabled);
      var e := ValidateRule(env, r, clients);
      if e.Some? { return Invalid, sched; }
      var cur := PortConflict(rules, i, r, id);
      if cur.Some? { return Conflict, sched; }
      rules := rules[i := r];
      assert rules[i := before] == old(rules);
      outcome, sched := SaveAndApply(rules[i := before], saved, bindOk);
    }

    method DeleteRule(id: Id, saved: bool) returns (outcome: Outcome)
      requires Valid()
      modifies `rules, `runners, `stops
      ensures Valid() && (View(), outcome) == DoDelete(old(View()), id, saved)
    {
      var i := FindRule(id);
      if i < 0 { return NotFound; }
      rules := rules[..i] + rules[i + 1..];
      StopRunner(id);
      return if saved then Done else SaveFailed;
    }

    method SetRuleEnabled(id: Id, on: bool, saved: bool, bindOk: Id -> bool)
      returns (outcome: Outcome, ghost sched: Schedule)
      requires Valid()
      modifies `rules, `runners, `stops, `binds, `listeners
      ensures Valid() && (View(), outcome) == DoSetEnabled(old(View()), id, on, saved, sched)
      ensures outcome.Done? ==> sched.bindOk == bindOk && Covers(old(Sockets()), rules, sched)
    {
      sched := Schedule(bindOk, [], []);
      var i := FindRule(id);
      if i < 0 { return NotFound, sched; }
      var before := rules[i].enabled;
      rules := rules[i := rules[i].(enabled := on)];
      assert rules[i := rules[i].(enabled := before)] == old(rules);
      outcome, sched := SaveAndApply(rules[i := rules[i].(enabled := before)], saved, bindOk);
    }

    // ---- clients, blacklist, notifications ----

    method AddClient(user: ClientUser, saved: bool) returns (outcome: Outcome)
      requires Valid()
      modifies `clients
      ensures Valid() && (View(), outcome) == DoAddClient(old(View()), user, saved)
    {
      if user.name == "" { return Invalid; }
      var found := FindClient(clients, user.name);
      if found { return Conflict; }
      clients := clients + [user];
      return if saved then Done else SaveFailed;
    }

    method DeleteClient(name: string, saved: bool) returns (outcome: Outcome)
      requires Valid()
      modifies `clients, `closed
      ensures Valid() && (View(), outcome) == DoDeleteClient(old(View()), name, saved)
      ensures closed == if outcome.Done? || outcome.SaveFailed?
                        then old(closed) + Sessions.SessionOf(sessions, name) else old(closed)
    {
      for i := 0 to |clients|
        invariant View() == old(View()) && closed == old(closed) && forall j :: 0 <= j < i ==> clients[j].name != name
      {
        if clients[i].name == name {
          assert ClientIndex(clients, name) == i;
          for k := 0 to |rules|
            invariant View() == old(View()) && closed == old(closed) && forall j :: 0 <= j < k ==>
                rules[j].client != name
          {
            if rules[k].client == name { return Conflict; }
          }
          clients := clients[..i] + clients[i + 1..];
          if name in sessions {
            closed := closed + {sessions[name]};
          }
          return if saved then Done else SaveFailed;
        }
      }
      return NotFound;
    }

    method SetBlacklist(entries: seq<string>, saved: bool) returns (outcome: Outcome)
      requires Valid()
      modifies `blacklist, `blVersion
      ensures Valid() && (View(), outcome) == DoSetBlacklist(env, old(View()), entries, saved)
    {
      var acl := Acl.BuildAcl(env.addresses, entries);
      if acl.Invalid? { return Invalid; }
      var before := blacklist;
      blacklist := entries;
      if !saved {
        blacklist := before;
        return SaveFailed;
      }
      blVersion := blVersion + 1;
      return Done;
    }

    method SetNotify(url: string, format: string, saved: bool) returns (outcome: Outcome)
      requires Valid()
      modifies `notifyUrl, `notifyFormat, `notifier
      ensures Valid() && (View(), outcome) == DoSetNotify(old(View()), url, format, saved)
    {
      if url != "" && format != "dingtalk" && format != "feishu" && format != "generic" { return Invalid; }
      var oldUrl, oldFormat := notifyUrl, notifyFormat;
      notifyUrl, notifyFormat := url, format;
      notifier := Normal(url, format);
      if !saved {
        notifyUrl, notifyFormat := oldUrl, oldFormat;
        notifier := Normal(oldUrl, oldFormat);
        return SaveFailed;
      }
      return Done;
    }

    // ---- import ----

    /** Everything an import replaces. */
    method TakeOver(cfg: Config)
      modifies `rules, `clients, `whitelist, `blacklist, `notifyUrl, `notifyFormat, `password, `noAuth, `logFile
      ensures Settings() == cfg.(identity := identity)
    {
      password, noAuth, whitelist, blacklist := cfg.password, cfg.noAuth, cfg.whitelist, cfg.blacklist;
      notifyUrl, notifyFormat, logFile := cfg.notifyUrl, cfg.notifyFormat, cfg.logFile;
      clients, rules := cfg.clients, cfg.rules;
    }

    method Restore(cfg: Config)
      modifies `rules, `clients, `whitelist, `blacklist, `notifyUrl, `notifyFormat, `password, `noAuth, `logFile,
        `notifier
      ensures Settings() == cfg.(identity := identity) && notifier == Normal(cfg.notifyUrl, cfg.notifyFormat)
    {
      TakeOver(cfg);
      notifier := Normal(cfg.notifyUrl, cfg.notifyFormat);
    }

    /** The checks an import makes on what it has just taken over. */
    method CheckImport() returns (ok: bool)
      ensures ok <==> Acceptable(env, whitelist, blacklist, rules, clients)
    {
      var white := Acl.BuildAcl(env.addresses, whitelist);
      if white.Invalid? { return false; }
      var black := Acl.BuildAcl(env.addresses, blacklist);
      if black.Invalid? { return false; }
      for i := 0 to |rules|
        invariant forall j :: 0 <= j < i ==> WellFormed(env, rules[j], clients)
      {
        var e := ValidateRule(env, rules[i], clients);
        if e.Some? {
          assert rules[i] in rules;
          return false;
        }
      }
      return true;
    }

    /** Sessions of clients that are no longer registered are closed. */
    method CloseOrphans()
      modifies `closed
      ensures closed == old(closed) + Sessions.Unlisted(sessions, Names(clients))
    {
      var todo := sessions.Keys;
      ghost var done: set<string> := {};
      while todo != {}
        invariant done + todo == sessions.Keys && done !! todo
        invariant closed == old(closed) + Orphans(sessions, clients, done)
      {
        var name := Maps.AnyOf(todo);
        todo := todo - {name};
        var found := FindClient(clients, name);
        if !found {
          closed := closed + {sessions[name]};
        }
        OneMoreOrphan(sessions, clients, done, name);
        done := done + {name};
      }
      assert done == sessions.Keys;
      OrphansAreUnlisted(sessions, clients);
    }

    /** What was taken over is checked and saved, or replaced by what was there before. */
    method CheckAndSave(before: Config, saved: bool) returns (outcome: Outcome)
      modifies `rules, `clients, `whitelist, `blacklist, `notifyUrl, `notifyFormat, `password, `noAuth, `logFile,
        `notifier
      ensures outcome == if !Importable(env, old(Settings())) then Invalid else if saved then Done else SaveFailed
      ensures outcome.Done? ==> Settings() == old(Settings()) && notifier == old(notifier)
      ensures !outcome.Done? ==>
                Settings() == before.(identity := identity) && notifier == Normal(before.notifyUrl, before.notifyFormat)
    {
      var ok := CheckImport();
      if ok && saved {
        return Done;
      }
      Restore(before);
      return if ok then SaveFailed else Invalid;
    }

    /** The fields change only if the imported ones pass the checks and are saved. */
    method TakeOverIfSaved(cfg: Config, saved: bool) returns (outcome: Outcome)
      modifies `rules, `clients, `whitelist, `blacklist, `notifyUrl, `notifyFormat, `password, `noAuth, `logFile,
        `notifier
      ensures outcome == if !Importable(env, cfg) then Invalid else if saved then Done else SaveFailed
      ensures outcome.Done? ==> Settings() == cfg.(identity := identity)
      ensures !outcome.Done? ==> Settings() == old(Settings()) && notifier == Normal(notifyUrl, notifyFormat)
    {
      var before := Config(rules, clients, whitelist, blacklist, notifyUrl, notifyFormat, password, noAuth, logFile,
                           identity);
      TakeOver(cfg);
      outcome := CheckAndSave(before, saved);
    }

    /** What was taken over goes into effect. */
    method Accept(bindOk: Id -> bool, ghost net: Net) returns (ghost sched: Schedule)
      requires Valid() && Sockets() == net
      modifies `notifier, `runners, `stops, `binds, `listeners, `closed
      ensures Valid() && notifier == Normal(notifyUrl, notifyFormat)
      ensures closed == old(closed) + Sessions.Unlisted(sessions, Names(clients))
      ensures sched.bindOk == bindOk && Covers(net, rules, sched) && Sockets() == Apply(net, rules, sched)
    {
      notifier := Normal(notifyUrl, notifyFormat);
      CloseOrphans();
      assert Sockets() == net;
      sched := ApplyRulesLocked(bindOk);
    }

    /** ... and the state is then the imported one; `was` is the state before. */
    method AcceptImport(cfg: Config, bindOk: Id -> bool, ghost was: State) returns (ghost sched: Schedule)
      requires Valid() && Settings() == cfg.(identity := was.cfg.identity)
      requires Sockets() == was.net && blVersion == was.blVersion
      modifies `notifier, `runners, `stops, `binds, `listeners, `closed
      ensures Valid() && closed == old(closed) + Sessions.Unlisted(sessions, Names(cfg.clients))
      ensures View() == Imported(was, cfg, sched)
      ensures sched.bindOk == bindOk && Covers(was.net, rules, sched)
    {
      ghost var config := Settings();
      sched := Accept(bindOk, was.net);
      assert Settings() == config;
    }

    method ImportConfig(cfg: Config, saved: bool, bindOk: Id -> bool) returns (outcome: Outcome, ghost sched: Schedule)
      requires Valid()
      modifies `rules, `clients, `whitelist, `blacklist, `notifyUrl, `notifyFormat, `password, `noAuth, `logFile,
        `notifier
      modifies `runners, `stops, `binds, `listeners, `closed
      ensures Valid() && (View(), outcome) == DoImport(env, old(View()), cfg, saved, sched)
      ensures closed == if outcome.Done? then old(closed) + Sessions.Unlisted(sessions, Names(cfg.clients))
          else old(closed)
      ensures outcome.Done? ==> sched.bindOk == bindOk && Covers(old(Sockets()), rules, sched)
    {
      sched := Schedule(bindOk, [], []);
      ghost var was := View();
      outcome := TakeOverIfSaved(cfg, saved);
      if outcome.Done? {
        sched := AcceptImport(cfg, bindOk, was);
        ImportTakesEffect(env, was, cfg, sched);
      } else {
        assert View() == was.(notifier := Normal(notifyUrl, notifyFormat));
        ImportIsRefused(env, was, cfg, saved, sched);
      }
    }
  }

  /** The sessions of those of `names` that are not registered. */
  ghost function Orphans(sessions: map<string, nat>, clients: seq<ClientUser>, names: set<string>): set<nat> {
    set name | name in sessions && name in names && !Registered(clients, name) :: sessions[name]
  }

  // ---- operations on clients are steps of the session machine ----

  function NameList(clients: seq<ClientUser>): (names: seq<string>)
    ensures |names| == |clients| && forall i :: 0 <= i < |names| ==> names[i] == clients[i].name
  {
    seq(|clients|, i requires 0 <= i < |clients| => clients[i].name)
  }

  /** The names of the configured clients, as often as they occur. */
  function Names(clients: seq<ClientUser>): multiset<string> {
    multiset(NameList(clients))
  }

  lemma NamedIff(clients: seq<ClientUser>, name: string)
    ensures name in Names(clients) <==> Registered(clients, name)
  {
    var names := NameList(clients);
    assert name in names <==> name in multiset(names);
    if c :| c in clients && c.name == name {
      var i :| 0 <= i < |clients| && clients[i] == c;
      assert names[i] == name;
    }
  }

  lemma WithoutTakesOne<T>(s: seq<T>, i: nat)
    requires i < |s|
    ensures multiset(Without(s, i)) == multiset(s) - multiset{s[i]}
  {
    assert s == s[..i] + [s[i]] + s[i + 1..];
  }

  lemma NamesWithout(clients: seq<ClientUser>, i: nat)
    requires i < |clients|
    ensures Names(Without(clients, i)) == Names(clients) - multiset{clients[i].name}
    ensures clients[i].name in Names(clients)
  {
    var names := NameList(clients);
    WithoutTakesOne(names, i);
    assert NameList(Without(clients, i)) == Without(names, i);
    assert names[i] in multiset(names);
  }

  lemma NamesWithOneMore(clients: seq<ClientUser>, user: ClientUser)
    ensures Names(clients + [user]) == Names(clients) + multiset{user.name}
  {
    assert NameList(clients + [user]) == NameList(clients) + [user.name];
  }

  lemma OrphansAreUnlisted(sessions: map<string, nat>, clients: seq<ClientUser>)
    ensures Orphans(sessions, clients, sessions.Keys) == Sessions.Unlisted(sessions, Names(clients))
  {
    forall name ensures name in Names(clients) <==> Registered(clients, name) {
      NamedIff(clients, name);
    }
  }

  /** What an operation on the configuration is to the sessions, if it takes effect. */
  function SessionStep(op: Op): Option<Sessions.Step> {
    match op
    case AddClient(user, _) => Some(Sessions.AddUser(user.name))
    case DeleteClient(name, _) => Some(Sessions.DeleteUser(name))
    case Import(cfg, _, _) => Some(Sessions.Import(Names(cfg.clients)))
    case _ => None
  }

  lemma OthersKeepClients(env: Env, s: State, op: Op)
    requires Legal(env, s, op) && SessionStep(op).None?
    ensures Do(env, s, op).0.cfg.clients == s.cfg.clients
  {
  }

  lemma AddingIsSessionStep(s: State, user: ClientUser, saved: bool, x: Sessions.State)
    requires x.users == Names(s.cfg.clients)
    ensures var (s', outcome) := DoAddClient(s, user, saved);
            TakesEffect(s, s', outcome, Sessions.AddUser(user.name), x)
  {
    NamedIff(s.cfg.clients, user.name);
    NamesWithOneMore(s.cfg.clients, user);
  }

  lemma DeletingIsSessionStep(s: State, name: string, saved: bool, x: Sessions.State)
    requires x.users == Names(s.cfg.clients)
    ensures var (s', outcome) := DoDeleteClient(s, name, saved);
            TakesEffect(s, s', outcome, Sessions.DeleteUser(name), x)
  {
    var i := ClientIndex(s.cfg.clients, name);
    if i >= 0 {
      NamesWithout(s.cfg.clients, i);
    }
  }

  /** An operation with this outcome has left the clients as they were, or has made `step` of them. */
  ghost predicate TakesEffect(s: State, s': State, outcome: Outcome, step: Sessions.Step, x: Sessions.State) {
    || s'.cfg.clients == s.cfg.clients
    || (&& (outcome.Done? || outcome.SaveFailed?) && Sessions.Enabled(x, step)
        && Sessions.Next(x, step).users == Names(s'.cfg.clients))
  }

  lemma ImportingIsSessionStep(env: Env, s: State, cfg: Config, saved: bool, sched: Schedule, x: Sessions.State)
    ensures var (s', outcome) := DoImport(env, s, cfg, saved, sched);
            TakesEffect(s, s', outcome, Sessions.Import(Names(cfg.clients)), x)
  {
  }

  /** Every operation either leaves the clients as they are, or it is the step of the session machine that
      belongs to it: possible at that moment, and with the same names afterwards. */
  lemma OperationsAreSessionSteps(env: Env, s: State, op: Op, x: Sessions.State)
    requires Legal(env, s, op) && x.users == Names(s.cfg.clients)
    ensures var (s', outcome) := Do(env, s, op);
            if SessionStep(op).None? then s'.cfg.clients == s.cfg.clients
            else TakesEffect(s, s', outcome, SessionStep(op).value, x)
  {
    match op
    case AddClient(user, saved) => AddingIsSessionStep(s, user, saved, x);
    case DeleteClient(name, saved) => DeletingIsSessionStep(s, name, saved, x);
    case Import(cfg, saved, sched) => ImportingIsSessionStep(env, s, cfg, saved, sched, x);
    case _ => OthersKeepClients(env, s, op);
  }

  lemma OneMoreOrphan(sessions: map<string, nat>, clients: seq<ClientUser>, names: set<string>, name: string)
    requires name in sessions
    ensures Orphans(sessions, clients, names + {name})
         == Orphans(sessions, clients, names) + if Registered(clients, name) then {} else {sessions[name]}
  {
    if !Registered(clients, name) {
      assert name in names + {name} && sessions[name] in Orphans(sessions, clients, names + {name});
    }
  }

  lemma ImportIsRefused(env: Env, s: State, cfg: Config, saved: bool, sched: Schedule)
    requires !Importable(env, cfg) || !saved
    ensures DoImport(env, s, cfg, saved, sched)
         == (s.(notifier := Normal(s.cfg.notifyUrl, s.cfg.notifyFormat)),
             if Importable(env, cfg) then SaveFailed else Invalid)
  {
  }

  lemma ImportTakesEffect(env: Env, s: State, cfg: Config, sched: Schedule)
    requires Importable(env, cfg)
    ensures DoImport(env, s, cfg, true, sched) == (Imported(s, cfg, sched), Done)
  {
  }

  lemma OrderWithLast(order: seq<Id>, id: Id, keys: set<Id>, todo: set<Id>)
    requires IsOrderOf(order, keys - todo) && id in todo && todo <= keys
    ensures IsOrderOf(order + [id], keys - (todo - {id}))
  {
    forall x ensures x in order + [id] <==> x in keys - (todo - {id}) {
      assert x in order + [id] <==> x in order || x == id;
    }
  }
}
