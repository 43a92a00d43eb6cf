/** The concurrent connection cap of handleTCP (server/forward.go, client/reverse.go): every handler
    adds one to a shared atomic counter, loads it, and either goes on or gives its one back. Add,
    Load and the final decrement of different handlers interleave freely. */
module ConnCap {

  /** Handlers between Add and Load, past the check, and refused but not yet decremented. */
  datatype State = State(counter: int, added: set<nat>, passed: set<nat>, refused: set<nat>, finished: set<nat>)

  datatype Step = Add(h: nat) | Load(h: nat) | Decrement(h: nat)

  function Initial(base: int): State {
    State(base, {}, {}, {}, {})
  }

  predicate Enabled(s: State, step: Step) {
    match step
    case Add(h) => h !in s.added + s.passed + s.refused + s.finished
    case Load(h) => h in s.added
    case Decrement(h) => h in s.passed + s.refused
  }

  function Next(s: State, maxConns: int, step: Step): State
    requires Enabled(s, step)
  {
    match step
    case Add(h) => s.(counter := s.counter + 1, added := s.added + {h})
    case Load(h) =>
      if maxConns > 0 && s.counter > maxConns then s.(added := s.added - {h}, refused := s.refused + {h})
      else s.(added := s.added - {h}, passed := s.passed + {h})
    case Decrement(h) =>
      s.(counter := s.counter - 1, passed := s.passed - {h}, refused := s.refused - {h}, finished := s.finished + {h})
  }

  ghost predicate Run(s: State, maxConns: int, steps: seq<Step>)
    decreases |steps|
  {
    steps == [] || (Enabled(s, steps[0]) && Run(Next(s, maxConns, steps[0]), maxConns, steps[1..]))
  }

  ghost function After(s: State, maxConns: int, steps: seq<Step>): State
    requires Run(s, maxConns, steps)
    decreases |steps|
  {
    if steps == [] then s else After(Next(s, maxConns, steps[0]), maxConns, steps[1..])
  }

  ghost predicate Disjoint(s: State) {
    forall h :: h in s.added + s.passed + s.refused + s.finished ==>
      && (h in s.added ==> h !in s.passed && h !in s.refused && h !in s.finished)
      && (h in s.passed ==> h !in s.refused && h !in s.finished)
      && (h in s.refused ==> h !in s.finished)
  }

  /** The counter is its starting value plus the handlers that have added and not yet given back. */
  ghost predicate Inv(s: State, base: int, maxConns: int) {
    && Disjoint(s)
    && s.counter == base + |s.added| + |s.passed| + |s.refused|
    && (maxConns > 0 ==> |s.passed| <= maxConns)
  }

  lemma AddKeepsInv(s: State, base: int, maxConns: int, h: nat)
    requires Inv(s, base, maxConns) && Enabled(s, Add(h))
    ensures Inv(Next(s, maxConns, Add(h)), base, maxConns)
  {
  }

  lemma LoadKeepsInv(s: State, base: int, maxConns: int, h: nat)
    requires base >= 0 && Inv(s, base, maxConns) && Enabled(s, Load(h))
    ensures Inv(Next(s, maxConns, Load(h)), base, maxConns)
  {
    Moved(s.added, s.refused, h);
    Moved(s.added, s.passed, h);
  }

  lemma DecrementKeepsInv(s: State, base: int, maxConns: int, h: nat)
    requires Inv(s, base, maxConns) && Enabled(s, Decrement(h))
    ensures Inv(Next(s, maxConns, Decrement(h)), base, maxConns)
  {
    if h in s.passed {
      assert s.refused - {h} == s.refused;
      Moved(s.passed, s.finished, h);
    } else {
      assert s.passed - {h} == s.passed;
      Moved(s.refused, s.finished, h);
    }
  }

  lemma Moved(from: set<nat>, to: set<nat>, h: nat)
    requires h in from && h !in to
    ensures |from - {h}| == |from| - 1 && |to + {h}| == |to| + 1
  {
  }

  lemma StepKeepsInv(s: State, base: int, maxConns: int, step: Step)
    requires base >= 0 && Inv(s, base, maxConns) && Enabled(s, step)
    ensures Inv(Next(s, maxConns, step), base, maxConns)
  {
    match step
    case Add(h) => AddKeepsInv(s, base, maxConns, h);
    case Load(h) => LoadKeepsInv(s, base, maxConns, h);
    case Decrement(h) => DecrementKeepsInv(s, base, maxConns, h);
  }

  lemma {:induction false} RunKeepsInv(s: State, base: int, maxConns: int, steps: seq<Step>)
    requires base >= 0 && Inv(s, base, maxConns) && Run(s, maxConns, steps)
    ensures Inv(After(s, maxConns, steps), base, maxConns)
    decreases |steps|
  {
    if steps != [] {
      StepKeepsInv(s, base, maxConns, steps[0]);
      RunKeepsInv(Next(s, maxConns, steps[0]), base, maxConns, steps[1..]);
    }
  }

  /** In every interleaving of any number of handlers at most maxConns are past the check at once,
      the counter is back at its starting value whenever no handler is under way, and a handler is
      refused exactly when there is a cap and it and the others under way exceed it. */
  lemma CapHolds(base: nat, maxConns: int, steps: seq<Step>)
    requires Run(Initial(base), maxConns, steps)
    ensures var s := After(Initial(base), maxConns, steps);
            && (maxConns > 0 ==> |s.passed| <= maxConns)
            && (s.added + s.passed + s.refused == {} ==> s.counter == base)
            && (forall h :: h in s.added ==>
                  var s', over := Next(s, maxConns, Load(h)), base + |s.added + s.passed + s.refused| > maxConns;
                  && (h in s'.refused <==> maxConns > 0 && over) && (h in s'.passed <==> maxConns <= 0 || !over))
  {
    RunKeepsInv(Initial(base), base, maxConns, steps);
    var s := After(Initial(base), maxConns, steps);
    assert s.added !! s.passed && s.added + s.passed !! s.refused;
    assert |s.added + s.passed + s.refused| == |s.added| + |s.passed| + |s.refused|;
  }

  /** The check may refuse more than it has to: two handlers that both add before either loads are
      both refused under a cap of one. */
  lemma BothMayBeRefused()
    ensures var steps := [Add(0), Add(1), Load(0), Load(1)];
            Run(Initial(0), 1, steps) && After(Initial(0), 1, steps).refused == {0, 1}
  {
    var s1 := Next(Initial(0), 1, Add(0));
    var s2 := Next(s1, 1, Add(1));
    var s3 := Next(s2, 1, Load(0));
    var s4 := Next(s3, 1, Load(1));
    assert s4.refused == {0, 1};
    Prepend(s3, 1, Load(1), []);
    Prepend(s2, 1, Load(0), [Load(1)]);
    Prepend(s1, 1, Add(1), [Load(0), Load(1)]);
    Prepend(Initial(0), 1, Add(0), [Add(1), Load(0), Load(1)]);
  }

  lemma Prepend(s: State, maxConns: int, step: Step, steps: seq<Step>)
    requires Enabled(s, step) && Run(Next(s, maxConns, step), maxConns, steps)
    ensures Run(s, maxConns, [step] + steps)
    ensures After(s, maxConns, [step] + steps) == After(Next(s, maxConns, step), maxConns, steps)
  {
    assert ([step] + steps)[1..] == steps;
  }
}
