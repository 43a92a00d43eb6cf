/** The versioned blacklist cache (server/forward.go acceptTCP, udpLocalRelay, udpTunnelRelay;
    server/state.go SetIPBlacklist, ImportConfig). Every accept loop keeps a compiled list and the
    version it belongs to, reads the version without the lock, and recompiles under the lock when it
    changed. SetIPBlacklist edits, saves, and only then bumps the version, all under the lock; a failed
    save takes the edit back. An import does the same but does not bump the version. */
module Blacklist {
  import opened Acl

  /** The writer inside the lock: saving with the old list at hand, or done but not yet unlocked. */
  datatype Writer = NoWriter | Saving(before: seq<string>, importing: bool) | Saved

  /** Where a loop is with the connection it accepted. `since` is the moment at which it read the
      version, and `imports` the number of imports saved by then. When it is ready to decide, `at` is a
      moment whose list its compiled one is, if it is `upToDate`: if it has just recompiled, or no import
      was saved between its last compilation and `since`. */
  datatype Phase =
    | Waiting
    | Checked(current: nat, since: nat, imports: nat)
    | Ready(since: nat, at: nat, upToDate: bool)

  /** `imports` is the number of imports saved when the list was compiled. */
  datatype Loop = Loop(acl: Compiled, version: nat, imports: nat, phase: Phase)

  /** `memory` is the list in the configuration object. The configured list is the last one whose
      save succeeded; history[t] is the configured list at moment t, one moment per step. */
  datatype State = State(memory: seq<string>, writer: Writer, version: nat, imports: nat, loops: map<nat, Loop>,
                         history: seq<seq<string>>)

  datatype Step =
    | StartLoop(l: nat)
    | Begin(entries: seq<string>, importing: bool)
    | SaveFails
    | SaveWorks
    | Unlock
    | ReadVersion(l: nat)
    | Refresh(l: nat)
    | Decide(l: nat)

  function Initial(list: seq<string>): State {
    State(list, NoWriter, 0, 0, map[], [list])
  }

  function Configured(s: State): seq<string>
    requires s.history != []
  {
    s.history[|s.history| - 1]
  }

  predicate Enabled(lib: Library, s: State, step: Step) {
    && s.history != []
    && match step
       case StartLoop(l) => l !in s.loops && s.writer.NoWriter?
       case Begin(entries, _) => s.writer.NoWriter? && !NewAcl(lib, entries).Invalid?
       case SaveFails => s.writer.Saving?
       case SaveWorks => s.writer.Saving?
       case Unlock => s.writer.Saved?
       case ReadVersion(l) => l in s.loops && s.loops[l].phase.Waiting?
       case Refresh(l) =>
         l in s.loops && s.loops[l].phase.Checked?
         && (s.loops[l].phase.current != s.loops[l].version ==> s.writer.NoWriter?)
       case Decide(l) => l in s.loops && s.loops[l].phase.Ready?
  }

  /** Recompile the list in memory if the version read differs from that of the compiled one. */
  function Refreshed(lib: Library, loop: Loop, memory: seq<string>, imports: nat, now: nat): Loop
    requires loop.phase.Checked?
  {
    var Checked(current, since, seen) := loop.phase;
    if current == loop.version then loop.(phase := Ready(since, since, loop.imports == seen))
    else Loop(NewAcl(lib, memory), current, imports, Ready(since, now, true))
  }

  function Next(lib: Library, s: State, step: Step): State
    requires Enabled(lib, s, step)
  {
    var now := |s.history|;
    var same := s.(history := s.history + [Configured(s)]);
    match step
    case StartLoop(l) => same.(loops := s.loops[l := Loop(NewAcl(lib, s.memory), s.version, s.imports, Waiting)])
    case Begin(entries, importing) => same.(memory := entries, writer := Saving(s.memory, importing))
    case SaveFails => same.(memory := s.writer.before, writer := NoWriter)
    case SaveWorks =>
      var done := s.(writer := Saved, history := s.history + [s.memory]);
      if s.writer.importing then done.(imports := s.imports + 1) else done.(version := s.version + 1)
    case Unlock => same.(writer := NoWriter)
    case ReadVersion(l) => same.(loops := s.loops[l := s.loops[l].(phase := Checked(s.version, now, s.imports))])
    case Refresh(l) => same.(loops := s.loops[l := Refreshed(lib, s.loops[l], s.memory, s.imports, now)])
    case Decide(l) => same.(loops := s.loops[l := s.loops[l].(phase := Waiting)])
  }

  /** The variables of one accept loop; the phase is where its code is. */
  class AcceptLoop {
    const lib: Library
    var acl: Compiled
    var version: nat
    ghost var imports: nat
    ghost var phase: Phase

    ghost function View(): Loop
      reads this
    {
      Loop(acl, version, imports, phase)
    }

    constructor (lib: Library, memory: seq<string>, version: nat, ghost imports: nat)
      ensures this.lib == lib && View() == Loop(NewAcl(lib, memory), version, imports, Waiting)
    {
      var compiled := BuildAcl(lib, memory);
      this.lib, acl, this.version, this.imports, phase := lib, compiled, version, imports, Waiting;
    }

    method ReadVersion(current: nat, ghost now: nat, ghost seen: nat)
      modifies `phase
      ensures View() == old(View()).(phase := Checked(current, now, seen))
    {
      phase := Checked(current, now, seen);
    }

    /** `current` is the version read without the lock, `memory` the list under the lock. */
    method Refresh(current: nat, memory: seq<string>, ghost saved: nat, ghost now: nat)
      requires phase.Checked? && phase.current == current
      modifies this
      ensures View() == Refreshed(lib, old(View()), memory, saved, now)
    {
      ghost var since := phase.since;
      if current != version {
        acl := BuildAcl(lib, memory);
        version := current;
        imports, phase := saved, Ready(since, now, true);
      } else {
        phase := Ready(since, since, imports == phase.imports);
      }
    }
  }

  ghost predicate Run(lib: Library, s: State, steps: seq<Step>)
    decreases |steps|
  {
    steps == [] || (Enabled(lib, s, steps[0]) && Run(lib, Next(lib, s, steps[0]), steps[1..]))
  }

  ghost function After(lib: Library, s: State, steps: seq<Step>): State
    requires Run(lib, s, steps)
    decreases |steps|
  {
    if steps == [] then s else After(lib, Next(lib, s, steps[0]), steps[1..])
  }

  ghost predicate LoopOk(lib: Library, s: State, loop: Loop)
    requires s.history != []
  {
    && loop.version <= s.version && loop.imports <= s.imports
    && (loop.version == s.version && loop.imports == s.imports ==> loop.acl == NewAcl(lib, Configured(s)))
    && match loop.phase
       case Waiting => true
       case Checked(current, since, seen) =>
         && since < |s.history| && loop.version <= current <= s.version && loop.imports <= seen <= s.imports
         && (current == loop.version && seen == loop.imports ==> loop.acl == NewAcl(lib, s.history[since]))
       case Ready(since, at, upToDate) =>
         since <= at < |s.history| && (upToDate ==> loop.acl == NewAcl(lib, s.history[at]))
  }

  ghost predicate Inv(lib: Library, s: State) {
    && s.history != []
    && (if s.writer.Saving? then s.writer.before else s.memory) == Configured(s)
    && forall l :: l in s.loops ==> LoopOk(lib, s, s.loops[l])
  }

  lemma OthersStayOk(lib: Library, s: State, s': State, loop: Loop)
    requires s.history != [] && LoopOk(lib, s, loop) && s.history <= s'.history
    requires s.version <= s'.version && s.imports <= s'.imports
    requires s'.version == s.version && s'.imports == s.imports ==> s'.history != [] && Configured(s') == Configured(s)
    ensures LoopOk(lib, s', loop)
  {
  }

  lemma LoopStepKeepsInv(lib: Library, s: State, step: Step, l: nat)
    requires Inv(lib, s) && Enabled(lib, s, step)
    requires step == StartLoop(l) || step == ReadVersion(l) || step == Refresh(l) || step == Decide(l)
    ensures LoopOk(lib, Next(lib, s, step), Next(lib, s, step).loops[l])
  {
    if !step.StartLoop? {
      assert LoopOk(lib, s, s.loops[l]);
    }
  }

  lemma StepKeepsInv(lib: Library, s: State, step: Step)
    requires Inv(lib, s) && Enabled(lib, s, step)
    ensures Inv(lib, Next(lib, s, step))
  {
    var s' := Next(lib, s, step);
    if step.StartLoop? || step.ReadVersion? || step.Refresh? || step.Decide? {
      LoopStepKeepsInv(lib, s, step, step.l);
    }
    forall l | l in s'.loops && l in s.loops && s'.loops[l] == s.loops[l] ensures LoopOk(lib, s', s'.loops[l]) {
      OthersStayOk(lib, s, s', s.loops[l]);
    }
  }

  lemma {:induction false} RunKeepsInv(lib: Library, s: State, steps: seq<Step>)
    requires Inv(lib, s) && Run(lib, s, steps)
    ensures Inv(lib, After(lib, s, steps))
    decreases |steps|
  {
    if steps != [] {
      StepKeepsInv(lib, s, steps[0]);
      RunKeepsInv(lib, Next(lib, s, steps[0]), steps[1..]);
    }
  }

  /** A loop with this compiled list turns away exactly the addresses that `entries` blacklists. */
  ghost predicate Enforces(lib: Library, acl: Compiled, entries: seq<string>) {
    forall ip :: Blocks(acl, ip) <==> Blacklisted(lib, entries, ip)
  }

  /** The verdict the loop is ready to give is, for every address, that of a list which was configured
      at some moment between its reading of the version and now. */
  ghost predicate Linearizable(lib: Library, s: State, l: nat)
    requires l in s.loops && s.loops[l].phase.Ready?
  {
    exists t :: s.loops[l].phase.since <= t < |s.history| && Enforces(lib, s.loops[l].acl, s.history[t])
  }

  /** In every interleaving of any number of accept loops with edits and imports, saved or not: a loop's
      decision is that of a list configured between its version read and now, provided that no import
      was saved between its last compilation and that read. */
  lemma DecisionIsLinearizable(lib: Library, list: seq<string>, steps: seq<Step>, l: nat)
    requires Run(lib, Initial(list), steps)
    requires l in After(lib, Initial(list), steps).loops && After(lib, Initial(list), steps).loops[l].phase.Ready?
    requires After(lib, Initial(list), steps).loops[l].phase.upToDate
    ensures Linearizable(lib, After(lib, Initial(list), steps), l)
  {
    RunKeepsInv(lib, Initial(list), steps);
    var s := After(lib, Initial(list), steps);
    assert LoopOk(lib, s, s.loops[l]);
    BlocksIff(lib, s.history[s.loops[l].phase.at]);
    assert Enforces(lib, s.loops[l].acl, s.history[s.loops[l].phase.at]);
  }

  // ---- how often a loop recompiles ----

  /** The step makes loop l compile the list again. */
  predicate Recompiles(s: State, step: Step, l: nat) {
    step == Refresh(l) && l in s.loops && s.loops[l].phase.Checked? && s.loops[l].phase.current != s.loops[l].version
  }

  ghost function Recompilations(lib: Library, s: State, steps: seq<Step>, l: nat): nat
    requires Run(lib, s, steps)
    decreases |steps|
  {
    if steps == [] then 0
    else (if Recompiles(s, steps[0], l) then 1 else 0) + Recompilations(lib, Next(lib, s, steps[0]), steps[1..], l)
  }

  lemma StepRaisesVersion(lib: Library, s: State, step: Step, l: nat)
    requires Inv(lib, s) && Enabled(lib, s, step) && l in s.loops
    ensures var s' := Next(lib, s, step);
            l in s'.loops
            && s'.loops[l].version >= s.loops[l].version + if Recompiles(s, step, l) then 1 else 0
  {
    assert LoopOk(lib, s, s.loops[l]);
  }

  /** In every run a loop compiles the list again at most once for each edit saved since the version it
      had; without edits it does not at all, nor does it need the lock. */
  lemma {:induction false} RecompilesOncePerEdit(lib: Library, s: State, steps: seq<Step>, l: nat)
    requires Inv(lib, s) && Run(lib, s, steps) && l in s.loops
    ensures var s' := After(lib, s, steps);
            && l in s'.loops && s'.loops[l].version <= s'.version
            && s.loops[l].version + Recompilations(lib, s, steps, l) <= s'.loops[l].version
    decreases |steps|
  {
    if steps != [] {
      StepRaisesVersion(lib, s, steps[0], l);
      StepKeepsInv(lib, s, steps[0]);
      RecompilesOncePerEdit(lib, Next(lib, s, steps[0]), steps[1..], l);
    } else {
      assert LoopOk(lib, s, s.loops[l]);
    }
  }

  ghost predicate NoImports(steps: seq<Step>) {
    forall step :: step in steps ==> step.Begin? ==> !step.importing
  }

  /** No import has been saved, and none is being saved. */
  ghost predicate Unimported(s: State) {
    && s.imports == 0 && !(s.writer.Saving? && s.writer.importing)
    && forall l :: l in s.loops ==>
         s.loops[l].imports == 0 && (s.loops[l].phase.Checked? ==> s.loops[l].phase.imports == 0)
         && (s.loops[l].phase.Ready? ==> s.loops[l].phase.upToDate)
  }

  lemma {:induction false} WithoutImportsUpToDate(lib: Library, s: State, steps: seq<Step>)
    requires Unimported(s) && Run(lib, s, steps) && NoImports(steps)
    ensures Unimported(After(lib, s, steps))
    decreases |steps|
  {
    if steps != [] {
      assert steps[0] in steps && forall step :: step in steps[1..] ==> step in steps;
      WithoutImportsUpToDate(lib, Next(lib, s, steps[0]), steps[1..]);
    }
  }

  /** When SetIPBlacklist is the only writer, every decision is linearizable. */
  lemma WithoutImportsLinearizable(lib: Library, list: seq<string>, steps: seq<Step>, l: nat)
    requires Run(lib, Initial(list), steps) && NoImports(steps)
    requires l in After(lib, Initial(list), steps).loops && After(lib, Initial(list), steps).loops[l].phase.Ready?
    ensures Linearizable(lib, After(lib, Initial(list), steps), l)
  {
    WithoutImportsUpToDate(lib, Initial(list), steps);
    DecisionIsLinearizable(lib, list, steps, l);
  }

  /** A saved import, and the next connection of a loop that was waiting. */
  function ImportThenDecide(s: State, entries: seq<string>, l: nat): seq<Step> {
    [Begin(entries, true), SaveWorks, Unlock, ReadVersion(l), Refresh(l)]
  }

  lemma Prepend(lib: Library, s: State, step: Step, s': State, steps: seq<Step>, end: State)
    requires Enabled(lib, s, step) && Next(lib, s, step) == s' && Run(lib, s', steps) && After(lib, s', steps) == end
    ensures Run(lib, s, [step] + steps) && After(lib, s, [step] + steps) == end
  {
    assert ([step] + steps)[1..] == steps;
  }

  /** A saved edit or import in full. */
  function AfterWrite(s: State, entries: seq<string>, importing: bool): State
    requires s.history != []
  {
    s.(memory := entries, version := if importing then s.version else s.version + 1,
       imports := if importing then s.imports + 1 else s.imports,
       history := s.history + [Configured(s)] + [entries] + [entries])
  }

  lemma WriteRuns(lib: Library, s: State, entries: seq<string>, importing: bool, steps: seq<Step>, end: State)
    requires s.history != [] && s.writer.NoWriter? && !NewAcl(lib, entries).Invalid?
    requires Run(lib, AfterWrite(s, entries, importing), steps)
             && After(lib, AfterWrite(s, entries, importing), steps) == end
    ensures var write := [Begin(entries, importing)] + ([SaveWorks] + ([Unlock] + steps));
            Run(lib, s, write) && After(lib, s, write) == end
  {
    var s1 := s.(memory := entries, writer := Saving(s.memory, importing), history := s.history + [Configured(s)]);
    var s2 := AfterWrite(s, entries, importing).(writer := Saved, history := s1.history + [entries]);
    Prepend(lib, s2, Unlock, AfterWrite(s, entries, importing), steps, end);
    Prepend(lib, s1, SaveWorks, s2, [Unlock] + steps, end);
    Prepend(lib, s, Begin(entries, importing), s1, [SaveWorks] + ([Unlock] + steps), end);
  }

  /** One that could not be saved. */
  lemma FailedWriteRuns(lib: Library, s: State, entries: seq<string>, importing: bool)
    requires s.history != [] && s.writer.NoWriter? && !NewAcl(lib, entries).Invalid?
    ensures var write := [Begin(entries, importing)] + ([SaveFails] + []);
            Run(lib, s, write)
            && After(lib, s, write) == s.(history := s.history + [Configured(s)] + [Configured(s)])
  {
    var s1 := s.(memory := entries, writer := Saving(s.memory, importing), history := s.history + [Configured(s)]);
    var s2 := s.(history := s.history + [Configured(s)] + [Configured(s)]);
    assert Run(lib, s2, []) && After(lib, s2, []) == s2;
    Prepend(lib, s1, SaveFails, s2, [], s2);
    Prepend(lib, s, Begin(entries, importing), s1, [SaveFails] + [], s2);
  }

  /** The next connection of a waiting loop: it decides by its old list, or by the one in memory. */
  lemma NextDecision(lib: Library, s: State, l: nat) returns (end: State)
    requires s.history != [] && s.writer.NoWriter? && l in s.loops && s.loops[l].phase.Waiting?
    ensures Run(lib, s, [ReadVersion(l)] + ([Refresh(l)] + []))
        && After(lib, s, [ReadVersion(l)] + ([Refresh(l)] + [])) == end
    ensures l in end.loops && end.loops[l].phase.Ready? && end.loops[l].phase.since == |end.history| - 2
    ensures end.history == s.history + [Configured(s)] + [Configured(s)]
    ensures end.loops[l].acl == if s.loops[l].version == s.version then s.loops[l].acl else NewAcl(lib, s.memory)
  {
    var s1 := Next(lib, s, ReadVersion(l));
    end := Next(lib, s1, Refresh(l));
    assert Run(lib, end, []) && After(lib, end, []) == end;
    Prepend(lib, s1, Refresh(l), end, [], end);
    Prepend(lib, s, ReadVersion(l), s1, [Refresh(l)] + [], end);
  }

  /** The proviso is needed: after an import in any reachable state, the next decision of a waiting loop
      is linearizable if and only if the loop was behind on an earlier edit anyway, or the imported list
      gives the same verdicts as the one the loop has. */
  lemma ImportIsLinearizableIff(lib: Library, s: State, entries: seq<string>, l: nat)
    requires Inv(lib, s) && s.writer.NoWriter? && l in s.loops && s.loops[l].phase.Waiting?
    requires !NewAcl(lib, entries).Invalid?
    ensures var steps := ImportThenDecide(s, entries, l);
            && Run(lib, s, steps) && l in After(lib, s, steps).loops && After(lib, s, steps).loops[l].phase.Ready?
            && (Linearizable(lib, After(lib, s, steps), l)
                <==> s.loops[l].version != s.version || Enforces(lib, s.loops[l].acl, entries))
  {
    var imported := AfterWrite(s, entries, true);
    var end := NextDecision(lib, imported, l);
    var next := [ReadVersion(l)] + ([Refresh(l)] + []);
    WriteRuns(lib, s, entries, true, next, end);
    assert [Begin(entries, true)] + ([SaveWorks] + ([Unlock] + next)) == ImportThenDecide(s, entries, l);
    BlocksIff(lib, entries);
    assert end.history[|end.history| - 1] == end.history[|end.history| - 2] == entries;
  }
}
