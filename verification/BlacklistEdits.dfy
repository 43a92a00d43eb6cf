/** The server's operations as the blacklist machine sees them (server/state.go SetIPBlacklist,
    ImportConfig): what each of them makes of the list in memory and of its version, and when the accept
    loops follow. */
module BlacklistEdits {
  import opened Streams
  import Reconciler
  import opened Rules
  import opened ServerState
  import Acl
  import Blacklist

  /** The machine, with nobody writing, stands where the server stands. */
  ghost predicate Agrees(x: Blacklist.State, s: State) {
    x.history != [] && x.writer.NoWriter? && x.memory == s.cfg.blacklist && x.version == s.blVersion
  }

  /** The list an operation wants to store, and whether it is an import. */
  function Wish(op: Op): Option<(seq<string>, bool)> {
    match op
    case SetBlacklist(entries, _) => Some((entries, false))
    case Import(cfg, _, _) => Some((cfg.blacklist, true))
    case _ => None
  }

  /** Begin, save, unlock; or begin and fail to save. */
  function Write(entries: seq<string>, importing: bool, saved: bool): seq<Blacklist.Step> {
    [Blacklist.Begin(entries, importing)]
    + (if saved then [Blacklist.SaveWorks] + ([Blacklist.Unlock] + []) else [Blacklist.SaveFails] + [])
  }

  /** What the machine does for an operation with that outcome: nothing if there is no list to store or it was
      turned down, otherwise one writer's steps. */
  function Steps(op: Op, outcome: Outcome): seq<Blacklist.Step> {
    if Wish(op).None? || outcome.Invalid? then []
    else Write(Wish(op).value.0, Wish(op).value.1, outcome.Done?)
  }

  /** The machine runs `steps` from `x` and then stands where the server stands. */
  ghost predicate Follows(lib: Acl.Library, x: Blacklist.State, steps: seq<Blacklist.Step>, s: State) {
    Blacklist.Run(lib, x, steps) && Agrees(Blacklist.After(lib, x, steps), s)
  }

  lemma WriteFollows(lib: Acl.Library, x: Blacklist.State, s: State, entries: seq<string>, importing: bool, s': State)
    requires Agrees(x, s) && !Acl.NewAcl(lib, entries).Invalid? && s'.cfg.blacklist == entries
    requires s'.blVersion == if importing then s.blVersion else s.blVersion + 1
    ensures Follows(lib, x, Write(entries, importing, true), s')
  {
    var end := Blacklist.AfterWrite(x, entries, importing);
    assert Blacklist.Run(lib, end, []) && Blacklist.After(lib, end, []) == end;
    Blacklist.WriteRuns(lib, x, entries, importing, [], end);
  }

  lemma FailureFollows(lib: Acl.Library, x: Blacklist.State, s: State, entries: seq<string>, importing: bool, s': State)
    requires Agrees(x, s) && !Acl.NewAcl(lib, entries).Invalid?
    requires s'.cfg.blacklist == s.cfg.blacklist && s'.blVersion == s.blVersion
    ensures Follows(lib, x, Write(entries, importing, false), s')
  {
    Blacklist.FailedWriteRuns(lib, x, entries, importing);
  }

  lemma NothingFollows(lib: Acl.Library, x: Blacklist.State, s: State)
    requires Agrees(x, s)
    ensures Follows(lib, x, [], s)
  {
    assert Blacklist.Run(lib, x, []) && Blacklist.After(lib, x, []) == x;
  }

  /** Every operation is, to the blacklist, exactly those steps of the machine: it leaves the list and the
      version as they are, or it is one writer's Begin, save and Unlock, so that memory and version agree
      with the machine's before and after. */
  lemma OperationsAreBlacklistSteps(env: Env, s: State, op: Op, x: Blacklist.State)
    requires Agrees(x, s)
    ensures var (s', outcome) := Do(env, s, op);
            Follows(env.addresses, x, Steps(op, outcome), s')
  {
    var (s', outcome) := Do(env, s, op);
    match op
    case SetBlacklist(entries, saved) => EditFollows(env, s, entries, saved, x);
    case Import(cfg, saved, sched) => ImportFollows(env, s, cfg, saved, sched, x);
    case _ =>
      NothingFollows(env.addresses, x, s');
  }

  lemma EditFollows(env: Env, s: State, entries: seq<string>, saved: bool, x: Blacklist.State)
    requires Agrees(x, s)
    ensures var (s', outcome) := DoSetBlacklist(env, s, entries, saved);
            Follows(env.addresses, x, Steps(SetBlacklist(entries, saved), outcome), s')
  {
    var (s', outcome) := DoSetBlacklist(env, s, entries, saved);
    if outcome.Invalid? {
      NothingFollows(env.addresses, x, s');
    } else if saved {
      WriteFollows(env.addresses, x, s, entries, false, s');
    } else {
      FailureFollows(env.addresses, x, s, entries, false, s');
    }
  }

  lemma ImportFollows(env: Env, s: State, cfg: Config, saved: bool, sched: Reconciler.Schedule, x: Blacklist.State)
    requires Agrees(x, s)
    ensures var (s', outcome) := DoImport(env, s, cfg, saved, sched);
            Follows(env.addresses, x, Steps(Import(cfg, saved, sched), outcome), s')
  {
    var (s', outcome) := DoImport(env, s, cfg, saved, sched);
    if outcome.Invalid? {
      NothingFollows(env.addresses, x, s');
    } else if saved {
      WriteFollows(env.addresses, x, s, cfg.blacklist, true, s');
    } else {
      FailureFollows(env.addresses, x, s, cfg.blacklist, true, s');
    }
  }

  // ---- what a saved edit means to the accept loops ----

  lemma EditOutcome(env: Env, s: State, entries: seq<string>, saved: bool)
    ensures var (s', outcome) := Do(env, s, SetBlacklist(entries, saved));
            && (outcome.Done? <==> saved && forall e :: e in entries ==> Acl.Parses(env.addresses, e))
            && (outcome.Invalid? <==> exists e :: e in entries && !Acl.Parses(env.addresses, e))
            && (if outcome.Done? then s'.cfg.blacklist == entries && s'.blVersion > s.blVersion
                else s'.cfg.blacklist == s.cfg.blacklist && s'.blVersion == s.blVersion)
  {
    Acl.InvalidIff(env.addresses, entries);
  }

  /** After a saved edit, every accept loop that was waiting, or has come back to waiting, with a version no
      newer than the one before the edit enforces the new list on its next connection. */
  lemma SavedEditIsEnforced(env: Env, s: State, entries: seq<string>, x: Blacklist.State, l: nat)
    requires Do(env, s, SetBlacklist(entries, true)).1.Done?
    requires Agrees(x, Do(env, s, SetBlacklist(entries, true)).0)
    requires l in x.loops && x.loops[l].phase.Waiting? && x.loops[l].version <= s.blVersion
    ensures var steps := [Blacklist.ReadVersion(l)] + ([Blacklist.Refresh(l)] + []);
            && Blacklist.Run(env.addresses, x, steps)
            && var end := Blacklist.After(env.addresses, x, steps);
               && l in end.loops && end.loops[l].phase.Ready?
               && forall ip :: Acl.Blocks(end.loops[l].acl, ip)
                               <==> exists e :: e in entries && Acl.Covers(env.addresses, e, ip)
  {
    EditOutcome(env, s, entries, true);
    var end := Blacklist.NextDecision(env.addresses, x, l);
    Acl.BlocksIff(env.addresses, entries);
  }

  lemma {:induction false} RunConcat(lib: Acl.Library, x: Blacklist.State, a: seq<Blacklist.Step>,
                                     b: seq<Blacklist.Step>)
    requires Blacklist.Run(lib, x, a) && Blacklist.Run(lib, Blacklist.After(lib, x, a), b)
    ensures Blacklist.Run(lib, x, a + b)
    ensures Blacklist.After(lib, x, a + b) == Blacklist.After(lib, Blacklist.After(lib, x, a), b)
    decreases |a|
  {
    if a == [] {
      assert a + b == b;
    } else {
      RunConcat(lib, Blacklist.Next(lib, x, a[0]), a[1..], b);
      assert (a + b)[1..] == a[1..] + b;
    }
  }

  /** The steps of a whole run of operations. */
  ghost function RunSteps(env: Env, s: State, ops: seq<Op>): seq<Blacklist.Step>
    decreases |ops|
  {
    if ops == [] then []
    else Steps(ops[0], Do(env, s, ops[0]).1) + RunSteps(env, Do(env, s, ops[0]).0, ops[1..])
  }

  lemma {:induction false} RunFollows(env: Env, s: State, ops: seq<Op>, x: Blacklist.State)
    requires Agrees(x, s)
    ensures Follows(env.addresses, x, RunSteps(env, s, ops), After(env, s, ops))
    decreases |ops|
  {
    if ops == [] {
      NothingFollows(env.addresses, x, s);
    } else {
      var first, s' := Steps(ops[0], Do(env, s, ops[0]).1), Do(env, s, ops[0]).0;
      OperationsAreBlacklistSteps(env, s, ops[0], x);
      RunFollows(env, s', ops[1..], Blacklist.After(env.addresses, x, first));
      RunConcat(env.addresses, x, first, RunSteps(env, s', ops[1..]));
    }
  }

  /** Every run of operations, from boot on, is a run of the machine that ends at the same list and version. */
  lemma RunsAreBlacklistRuns(env: Env, cfg: Config, ops: seq<Op>)
    ensures Follows(env.addresses, Blacklist.Initial(cfg.blacklist), RunSteps(env, Started(cfg), ops),
                    After(env, Started(cfg), ops))
  {
    RunFollows(env, Started(cfg), ops, Blacklist.Initial(cfg.blacklist));
  }
}
