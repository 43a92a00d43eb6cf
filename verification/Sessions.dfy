/** Sessions of clients at the server (server/server.go handleTunnel, server/state.go): the token check,
    registration with takeover, and cleanup. Every accepted connection has a handler that looks up its
    token, later registers its session under the client's name, closing the one that was there, waits
    until its session is closed, and then cleans up if it is still the one in the map. Handlers and the
    operations on clients interleave at the server mutex; a session may close at any time. */
module Sessions {

  /** `users` are the names of the configured clients and `clients` is the map of those online;
      `admitted` are the handlers between the token check and registration, `waiting` those between
      registration and cleanup (a handler and its session share an id), with the name each goes by. */
  datatype State = State(users: multiset<string>, clients: map<string, nat>, admitted: map<nat, string>,
                         waiting: map<nat, string>, closed: set<nat>, ever: set<nat>)

  datatype Step =
    | Authenticate(name: string, session: nat)  // the token belongs to a configured client
    | Register(session: nat)                    // handshake done: take the name over
    | Close(session: nat)                       // the network closes it
    | Cleanup(session: nat)                     // its handler noticed
    | AddUser(name: string)                     // AddClient
    | DeleteUser(name: string)                  // DeleteClient: closes the session in the map
    | Import(users: multiset<string>)           // ImportConfig: closes those of names no longer configured

  function Initial(users: multiset<string>): State {
    State(users, map[], map[], map[], {}, {})
  }

  predicate Enabled(s: State, step: Step) {
    match step
    case Authenticate(name, session) => name in s.users && session !in s.admitted && session !in s.ever
    case Register(session) => session in s.admitted && session !in s.ever
    case Close(session) => session in s.ever
    case Cleanup(session) => session in s.waiting && session in s.closed
    case AddUser(name) => name !in s.users
    case DeleteUser(name) => name in s.users
    case Import(_) => true
  }

  /** The sessions in the map whose names are not configured. */
  function Unlisted(clients: map<string, nat>, users: multiset<string>): set<nat> {
    set name | name in clients && name !in users :: clients[name]
  }

  function SessionOf(clients: map<string, nat>, name: string): set<nat> {
    if name in clients then {clients[name]} else {}
  }

  function Next(s: State, step: Step): State
    requires Enabled(s, step)
  {
    match step
    case Authenticate(name, session) => s.(admitted := s.admitted[session := name])
    case Register(session) =>
      var name := s.admitted[session];
      s.(clients := s.clients[name := session], admitted := s.admitted - {session},
         waiting := s.waiting[session := name], closed := s.closed + SessionOf(s.clients, name),
         ever := s.ever + {session})
    case Close(session) => s.(closed := s.closed + {session})
    case Cleanup(session) =>
      var name := s.waiting[session];
      s.(clients := if name in s.clients && s.clients[name] == session then s.clients - {name} else s.clients,
         waiting := s.waiting - {session})
    case AddUser(name) => s.(users := s.users + multiset{name})
    case DeleteUser(name) =>
      s.(users := s.users - multiset{name}, closed := s.closed + SessionOf(s.clients, name))
    case Import(users) => s.(users := users, closed := s.closed + Unlisted(s.clients, users))
  }

  class Registry {
    ghost var users: multiset<string>     // the configuration belongs to the server
    var clients: map<string, nat>
    var closed: set<nat>                  // what Session.IsClosed() reports
    ghost var admitted: map<nat, string>  // each handler knows its own name and session
    ghost var waiting: map<nat, string>
    ghost var ever: set<nat>

    ghost function View(): State
      reads this
    {
      State(users, clients, admitted, waiting, closed, ever)
    }

    constructor (ghost users: multiset<string>)
      ensures View() == Initial(users)
    {
      this.users, clients, admitted, waiting, closed, ever := users, map[], map[], map[], {}, {};
    }

    method Takeover(name: string, session: nat)
      requires Enabled(View(), Register(session)) && admitted[session] == name
      modifies this
      ensures View() == Next(old(View()), Register(session))
    {
      if name in clients {
        closed := closed + {clients[name]};
      }
      clients := clients[name := session];
      admitted := admitted - {session};
      waiting := waiting[session := name];
      ever := ever + {session};
    }

    method CleanUp(name: string, session: nat)
      requires session in waiting && waiting[session] == name && session in closed
      modifies this
      ensures View() == Next(old(View()), Cleanup(session))
    {
      if name in clients && clients[name] == session {
        clients := clients - {name};
      }
      waiting := waiting - {session};
    }
  }

  ghost predicate Run(s: State, steps: seq<Step>)
    decreases |steps|
  {
    steps == [] || (Enabled(s, steps[0]) && Run(Next(s, steps[0]), steps[1..]))
  }

  ghost function After(s: State, steps: seq<Step>): State
    requires Run(s, steps)
    decreases |steps|
  {
    if steps == [] then s else After(Next(s, steps[0]), steps[1..])
  }

  ghost predicate Inv(s: State) {
    && s.waiting.Keys <= s.ever && s.closed <= s.ever
    && (forall name :: name in s.clients ==> s.clients[name] in s.waiting && s.waiting[s.clients[name]] == name)
    && (forall session :: session in s.ever && session !in s.closed ==>
          session in s.waiting && s.waiting[session] in s.clients && s.clients[s.waiting[session]] == session)
  }

  lemma StepKeepsInv(s: State, step: Step)
    requires Inv(s) && Enabled(s, step)
    ensures Inv(Next(s, step))
  {
  }

  lemma {:induction false} RunKeepsInv(s: State, steps: seq<Step>)
    requires Inv(s) && Run(s, steps)
    ensures Inv(After(s, steps))
    decreases |steps|
  {
    if steps != [] {
      StepKeepsInv(s, steps[0]);
      RunKeepsInv(Next(s, steps[0]), steps[1..]);
    }
  }

  /** In every interleaving: a session that was registered and is still open is the one in the map
      for its name; the map never holds a session whose handler is gone, so once all handlers of
      closed sessions have cleaned up the map holds exactly the open ones. */
  lemma OpenSessionsAreTheRegisteredOnes(users: multiset<string>, steps: seq<Step>)
    requires Run(Initial(users), steps)
    ensures var s := After(Initial(users), steps);
            && (forall session :: session in s.ever && session !in s.closed ==>
                  session in s.waiting && s.waiting[session] in s.clients && s.clients[s.waiting[session]] == session)
            && (s.waiting.Keys !! s.closed ==> s.clients.Values == s.ever - s.closed)
  {
    RunKeepsInv(Initial(users), steps);
    var s := After(Initial(users), steps);
    if s.waiting.Keys !! s.closed {
      forall session | session in s.ever - s.closed ensures session in s.clients.Values {
        assert s.clients[s.waiting[session]] == session;
      }
    }
  }

  /** Late cleanup is harmless: it takes out its own session's entry if that is still there, and
      leaves every other entry, in particular its successor's, as it is. */
  lemma CleanupSparesSuccessor(users: multiset<string>, steps: seq<Step>, session: nat)
    requires Run(Initial(users), steps) && Enabled(After(Initial(users), steps), Cleanup(session))
    ensures var s := After(Initial(users), steps);
            var s' := Next(s, Cleanup(session));
            && session !in s'.clients.Values && session !in s'.waiting && s'.closed == s.closed
            && forall name :: name in s.clients && s.clients[name] != session ==>
                 name in s'.clients && s'.clients[name] == s.clients[name]
  {
    RunKeepsInv(Initial(users), steps);
  }

  // ---- what ends a session, and what does not ----

  /** A registration closes the session that was online under its own name, and no other: every other
      name keeps its session, open or closed as it was, and the new session is open and online. */
  lemma RegistrationSparesOthers(users: multiset<string>, steps: seq<Step>, session: nat)
    requires Run(Initial(users), steps) && Enabled(After(Initial(users), steps), Register(session))
    ensures var s := After(Initial(users), steps);
            var s', name := Next(s, Register(session)), s.admitted[session];
            && name in s'.clients && s'.clients[name] == session && session !in s'.closed
            && (name in s.clients ==> s.clients[name] != session && s.clients[name] in s'.closed)
            && (forall other :: other in s.clients && other != name ==>
                  && other in s'.clients && s'.clients[other] == s.clients[other]
                  && (s.clients[other] in s'.closed <==> s.clients[other] in s.closed))
            && (forall gone :: gone in s'.closed && gone !in s.closed ==> name in s.clients && s.clients[name] == gone)
  {
    RunKeepsInv(Initial(users), steps);
  }

  /** What ends a session that is online under `name`: the network, a newer session of the same name,
      the deletion of the client, or an import in which it is missing. */
  predicate Ends(s: State, step: Step, name: string, session: nat) {
    match step
    case Close(closed) => closed == session
    case Register(newer) => newer in s.admitted && s.admitted[newer] == name
    case DeleteUser(deleted) => deleted == name
    case Import(users) => name !in users
    case _ => false
  }

  /** Some step of the run does. */
  ghost predicate Ended(s: State, steps: seq<Step>, name: string, session: nat)
    requires Run(s, steps)
    decreases |steps|
  {
    steps != [] && (Ends(s, steps[0], name, session) || Ended(Next(s, steps[0]), steps[1..], name, session))
  }

  predicate Open(s: State, name: string, session: nat) {
    session in s.ever && session !in s.closed && session in s.waiting && s.waiting[session] == name
  }

  lemma StepEndsIff(s: State, step: Step, name: string, session: nat)
    requires Inv(s) && Enabled(s, step) && Open(s, name, session)
    ensures var s' := Next(s, step);
            && s.closed <= s'.closed
            && (if Ends(s, step, name, session) then session in s'.closed else Open(s', name, session))
  {
    if step.Import? && name !in step.users {
      assert s.clients[name] in Unlisted(s.clients, step.users);
    }
  }

  lemma {:induction false} ClosedStaysClosed(s: State, steps: seq<Step>)
    requires Run(s, steps)
    ensures s.closed <= After(s, steps).closed
    decreases |steps|
  {
    if steps != [] {
      ClosedStaysClosed(Next(s, steps[0]), steps[1..]);
    }
  }

  lemma {:induction false} RunEndsIff(s: State, steps: seq<Step>, name: string, session: nat)
    requires Inv(s) && Run(s, steps) && Open(s, name, session)
    ensures if Ended(s, steps, name, session) then session in After(s, steps).closed
            else Open(After(s, steps), name, session)
    decreases |steps|
  {
    if steps != [] {
      var s' := Next(s, steps[0]);
      StepKeepsInv(s, steps[0]);
      StepEndsIff(s, steps[0], name, session);
      if Ends(s, steps[0], name, session) {
        ClosedStaysClosed(s', steps[1..]);
      } else {
        RunEndsIff(s', steps[1..], name, session);
      }
    }
  }

  /** In every run: once a session has been registered it goes on being open and online under its name until
      one of those steps comes, and is closed from then on. Nothing that other clients do ends it. */
  lemma SessionEndsIff(users: multiset<string>, before: seq<Step>, session: nat, steps: seq<Step>)
    requires Run(Initial(users), before) && Enabled(After(Initial(users), before), Register(session))
    requires Run(Next(After(Initial(users), before), Register(session)), steps)
    ensures var name := After(Initial(users), before).admitted[session];
            var s := Next(After(Initial(users), before), Register(session));
            var s' := After(s, steps);
            && (session in s'.closed <==> Ended(s, steps, name, session))
            && (session !in s'.closed ==> name in s'.clients && s'.clients[name] == session)
  {
    RunKeepsInv(Initial(users), before);
    var s := After(Initial(users), before);
    StepKeepsInv(s, Register(session));
    RunEndsIff(Next(s, Register(session)), steps, s.admitted[session], session);
    RunKeepsInv(Next(s, Register(session)), steps);
  }

  // ---- clients that are deleted in between ----

  /** An open session of a client that is not configured. */
  predicate Illegitimate(s: State, session: nat) {
    session in s.waiting && session !in s.closed && s.waiting[session] !in s.users
  }

  /** It registers although its client is gone by now. */
  predicate RegistersLate(s: State, step: Step, session: nat) {
    step == Register(session) && Enabled(s, step) && s.admitted[session] !in s.users
  }

  /** A client of that name is configured. */
  predicate Configures(step: Step, name: string) {
    step == AddUser(name) || (step.Import? && name in step.users)
  }

  /** Deleting a client or importing closes the open session of every name that is configured no more. */
  lemma RemovalCloses(s: State, step: Step, session: nat)
    requires Inv(s) && Enabled(s, step) && (step.DeleteUser? || step.Import?)
    requires session in s.ever && session !in s.closed && s.waiting[session] in s.users
    ensures !Illegitimate(Next(s, step), session)
  {
    var name := s.waiting[session];
    if step.Import? && name !in step.users {
      assert s.clients[name] in Unlisted(s.clients, step.users);
    }
  }

  lemma StepIsIllegitimateIff(s: State, step: Step, session: nat)
    requires Inv(s) && Enabled(s, step)
    ensures var s' := Next(s, step);
            Illegitimate(s', session)
            <==> session !in s'.closed
                 && ((Illegitimate(s, session) && !Configures(step, s.waiting[session]))
                     || RegistersLate(s, step, session))
  {
    if (step.DeleteUser? || step.Import?) && session in s.waiting && session !in s.closed
       && s.waiting[session] in s.users {
      RemovalCloses(s, step, session);
    }
  }

  /** Somewhere in the run the session registers late, and no later step configures its client again. */
  ghost predicate LateForGood(s: State, steps: seq<Step>, session: nat)
    requires Run(s, steps)
    decreases |steps|
  {
    steps != []
    && ((RegistersLate(s, steps[0], session) && NeverConfigured(steps[1..], s.admitted[session]))
        || LateForGood(Next(s, steps[0]), steps[1..], session))
  }

  ghost predicate NeverConfigured(steps: seq<Step>, name: string) {
    forall step :: step in steps ==> !Configures(step, name)
  }

  lemma {:induction false} RunIsIllegitimateIff(s: State, steps: seq<Step>, session: nat)
    requires Inv(s) && Run(s, steps)
    ensures var s' := After(s, steps);
            && s.closed <= s'.closed
            && (Illegitimate(s', session)
                <==> session !in s'.closed
                     && ((Illegitimate(s, session) && NeverConfigured(steps, s.waiting[session]))
                         || LateForGood(s, steps, session)))
    decreases |steps|
  {
    if steps != [] {
      var s1 := Next(s, steps[0]);
      StepKeepsInv(s, steps[0]);
      StepIsIllegitimateIff(s, steps[0], session);
      RunIsIllegitimateIff(s1, steps[1..], session);
      assert steps == [steps[0]] + steps[1..];
    }
  }

  /** In every interleaving of handlers with operations on clients: an open session belongs to a client that
      is not configured exactly when that client was removed after the session's token had been looked up
      and before it was registered, and has not been configured again since. */
  lemma OpenSessionIsIllegitimateIff(users: multiset<string>, steps: seq<Step>, session: nat)
    requires Run(Initial(users), steps)
    ensures var s := After(Initial(users), steps);
            Illegitimate(s, session) <==> session !in s.closed && LateForGood(Initial(users), steps, session)
  {
    RunIsIllegitimateIff(Initial(users), steps, session);
  }

  /** It happens: the client is deleted while its handler answers it. */
  lemma DeletedInBetween(users: multiset<string>, name: string, session: nat)
    requires users[name] == 1
    ensures var steps := [Authenticate(name, session), DeleteUser(name), Register(session)];
            && Run(Initial(users), steps) && Illegitimate(After(Initial(users), steps), session)
            && !Enabled(After(Initial(users), steps), DeleteUser(name))
  {
    var s1 := Next(Initial(users), Authenticate(name, session));
    var s2 := Next(s1, DeleteUser(name));
    var s3 := Next(s2, Register(session));
    assert Run(s3, []) && After(s3, []) == s3;
    OneStep(s2, Register(session), []);
    OneStep(s1, DeleteUser(name), [Register(session)]);
    OneStep(Initial(users), Authenticate(name, session), [DeleteUser(name), Register(session)]);
  }

  lemma OneStep(s: State, step: Step, steps: seq<Step>)
    requires Enabled(s, step) && Run(Next(s, step), steps)
    ensures Run(s, [step] + steps) && After(s, [step] + steps) == After(Next(s, step), steps)
  {
    assert ([step] + steps)[1..] == steps;
  }
}
