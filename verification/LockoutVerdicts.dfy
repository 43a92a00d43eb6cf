/** Who is turned away by the lockout machine, and for how long: the verdict on an attempt in terms of the
    source's own failures since its last success. `LockoutRate` says that the machine is strict enough; this
    says that it is no stricter than that, and that locks end. */
module LockoutVerdicts {
  import opened Lockout

  /** No two failures in a row lie more than the blocking time apart. */
  predicate Steady(p: Policy, times: seq<int>) {
    forall i :: 0 < i < |times| ==> times[i] - times[i - 1] <= p.blockFor
  }

  /** Of n failures the last one that completes a group of maxFails. */
  function LastLock(p: Policy, n: nat): (i: int)
    requires p.maxFails >= 1
    ensures n < p.maxFails ==> i < 0
    ensures n >= p.maxFails ==> 0 <= i < n
  {
    GroupsFit(p.maxFails, n);
    n - n % p.maxFails - 1
  }

  lemma GroupsFit(m: int, n: nat)
    requires m >= 1
    ensures n < m ==> n % m == n
    ensures n >= m ==> n - n % m >= m
  {
    assert n == n / m * m + n % m;
    if n >= m {
      assert n / m >= 1;
      MultiplesGrow(n / m, m);
    }
  }

  lemma MultiplesGrow(q: int, m: int)
    requires q >= 1 && m >= 1
    ensures q * m >= m
  {
  }

  lemma OneMore(m: int, n: nat)
    requires m >= 1
    ensures (n + 1) % m == if n % m + 1 == m then 0 else n % m + 1
  {
    var q, r := n / m, n % m;
    assert n + 1 == q * m + (r + 1);
    if r + 1 == m {
      assert n + 1 == (q + 1) * m;
      ModOf(q + 1, m, 0, n + 1);
    } else {
      ModOf(q, m, r + 1, n + 1);
    }
  }

  lemma ModOf(q: int, m: int, r: int, x: int)
    requires m >= 1 && 0 <= r < m && x == q * m + r
    ensures x % m == r
  {
    var d := x / m - q;
    assert x == x / m * m + x % m;
    assert d * m == r - x % m;
    if d >= 1 {
      MultiplesGrow(d, m);
    } else if d <= -1 {
      MultiplesGrow(-d, m);
    }
  }

  /** When the source's lock runs out, judged by its failures alone; without one, long ago. */
  function LockEnd(p: Policy, blocks: seq<int>): int
    requires p.maxFails >= 1
  {
    if |blocks| < p.maxFails then ZERO_TIME else blocks[LastLock(p, |blocks|)] + p.blockFor
  }

  ghost predicate TimesOk(s: State, h: Host) {
    && s.clock > ZERO_TIME && |Blocks(s, h)| == |Log(s, h)|
    && forall i :: 0 <= i < |Log(s, h)| ==> Log(s, h)[i] <= Blocks(s, h)[i] <= s.clock
  }

  /** The record of a source whose failures are steady is what they make of it; without a record, they are
      too long ago to matter. */
  ghost predicate RecordIs(p: Policy, s: State, h: Host)
    requires p.maxFails >= 1
  {
    var times, blocks := Log(s, h), Blocks(s, h);
    var n := |times|;
    if h in s.fails then n > 0 && s.fails[h] == Track(n % p.maxFails, times[n - 1], LockEnd(p, blocks))
    else n > 0 ==> s.clock > times[n - 1] + p.blockFor && s.clock > LockEnd(p, blocks)
  }

  ghost predicate Inv(p: Policy, s: State, h: Host)
    requires p.maxFails >= 1
  {
    TimesOk(s, h) && (Steady(p, Log(s, h)) ==> RecordIs(p, s, h))
  }

  lemma SteadySoFar(p: Policy, times: seq<int>, at: int)
    requires Steady(p, times + [at])
    ensures Steady(p, times) && (times != [] ==> at - times[|times| - 1] <= p.blockFor)
  {
    var longer := times + [at];
    forall i | 0 < i < |times| ensures times[i] - times[i - 1] <= p.blockFor {
      assert longer[i] - longer[i - 1] <= p.blockFor;
    }
    if times != [] {
      assert longer[|times|] - longer[|times| - 1] <= p.blockFor;
    }
  }

  /** One failure more completes the group, or the last lock stays the last one. */
  lemma LockEndAfter(p: Policy, blocks: seq<int>, blockedAt: int)
    requires p.maxFails >= 1
    ensures LockEnd(p, blocks + [blockedAt])
         == if |blocks| % p.maxFails + 1 == p.maxFails then blockedAt + p.blockFor else LockEnd(p, blocks)
  {
    OneMore(p.maxFails, |blocks|);
    GroupsFit(p.maxFails, |blocks|);
    GroupsFit(p.maxFails, |blocks| + 1);
  }

  lemma FailureKeepsInv(p: Policy, s: State, h: Host, at: int, blockedAt: int)
    requires p.maxFails >= 1 && p.blockFor >= 0 && Inv(p, s, h) && Enabled(s, Failure(h, at, blockedAt))
    ensures Inv(p, Next(p, s, Failure(h, at, blockedAt)), h)
  {
    var s', n := Next(p, s, Failure(h, at, blockedAt)), |Log(s, h)|;
    assert Log(s', h) == Log(s, h) + [at] && Blocks(s', h) == Blocks(s, h) + [blockedAt];
    if Steady(p, Log(s', h)) {
      SteadySoFar(p, Log(s, h), at);
      OneMore(p.maxFails, n);
      LockEndAfter(p, Blocks(s, h), blockedAt);
    }
  }

  lemma StepKeepsInv(p: Policy, s: State, h: Host, step: Step)
    requires p.maxFails >= 1 && p.blockFor >= 0 && Inv(p, s, h) && Enabled(s, step)
    ensures Inv(p, Next(p, s, step), h)
  {
    if step.Failure? && step.host == h {
      FailureKeepsInv(p, s, h, step.at, step.blockedAt);
    }
  }

  lemma {:induction false} RunKeepsInv(p: Policy, s: State, h: Host, steps: seq<Step>)
    requires p.maxFails >= 1 && p.blockFor >= 0 && Inv(p, s, h) && Run(p, s, steps)
    ensures Inv(p, After(p, s, steps), h)
    decreases |steps|
  {
    if steps != [] {
      StepKeepsInv(p, s, h, steps[0]);
      RunKeepsInv(p, Next(p, s, steps[0]), h, steps[1..]);
    }
  }

  /** In every run, whatever others do and however often records are swept: as long as a source's failures
      since its last success come at most the blocking time apart, its next attempt is turned away exactly
      when it is not exempt and the last failure that completed a group of maxFails is less than the
      blocking time ago; and its record is in the table afterwards exactly when that lock, or the blocking
      time since its last failure, had not run out when the table was swept. */
  lemma VerdictIff(p: Policy, steps: seq<Step>, h: Host, sweptAt: int, checkedAt: int)
    requires p.maxFails >= 1 && p.blockFor >= 0 && Run(p, INITIAL, steps)
    requires Enabled(After(p, INITIAL, steps), Attempt(h, sweptAt, checkedAt))
    requires Steady(p, Log(After(p, INITIAL, steps), h))
    ensures var s := After(p, INITIAL, steps);
            var s', times, blocks := Next(p, s, Attempt(h, sweptAt, checkedAt)), Log(s, h), Blocks(s, h);
            var n := |times|;
            && |blocks| == n
            && (s'.busy[h] == if !p.exempt(h) && n >= p.maxFails
                                 && checkedAt < blocks[n - n % p.maxFails - 1] + p.blockFor
                              then s.busy[h] else s.busy[h] + 1)
            && (h in s'.fails <==> n > 0 && (sweptAt <= times[n - 1] + p.blockFor || sweptAt <= LockEnd(p, blocks)))
  {
    RunKeepsInv(p, INITIAL, h, steps);
    var s := After(p, INITIAL, steps);
    TurnedAwayIff(p, s, h, sweptAt, checkedAt);
    KeptIff(p, s, h, sweptAt, checkedAt);
    LockEndIs(p, Blocks(s, h));
  }

  lemma LockEndIs(p: Policy, blocks: seq<int>)
    requires p.maxFails >= 1
    ensures var n := |blocks|;
            && (n >= p.maxFails ==> 0 <= n - n % p.maxFails - 1 < n
                                    && LockEnd(p, blocks) == blocks[n - n % p.maxFails - 1] + p.blockFor)
            && (n < p.maxFails ==> LockEnd(p, blocks) == ZERO_TIME)
  {
    GroupsFit(p.maxFails, |blocks|);
  }

  lemma TurnedAwayIff(p: Policy, s: State, h: Host, sweptAt: int, checkedAt: int)
    requires p.maxFails >= 1 && p.blockFor >= 0 && TimesOk(s, h) && RecordIs(p, s, h)
    requires Enabled(s, Attempt(h, sweptAt, checkedAt))
    ensures Next(p, s, Attempt(h, sweptAt, checkedAt)).busy[h]
         == if !p.exempt(h) && checkedAt < LockEnd(p, Blocks(s, h)) then s.busy[h] else s.busy[h] + 1
  {
    var fails := s.fails - Stale(p, s.fails, sweptAt);
    assert h in fails <==> h in s.fails && !IsStale(p, s.fails[h], sweptAt);
    assert Locked(p, fails, h, checkedAt) <==> !p.exempt(h) && checkedAt < LockEnd(p, Blocks(s, h));
  }

  lemma KeptIff(p: Policy, s: State, h: Host, sweptAt: int, checkedAt: int)
    requires p.maxFails >= 1 && p.blockFor >= 0 && TimesOk(s, h) && RecordIs(p, s, h)
    requires Enabled(s, Attempt(h, sweptAt, checkedAt))
    ensures var times := Log(s, h);
            h in Next(p, s, Attempt(h, sweptAt, checkedAt)).fails
            <==> times != [] && (sweptAt <= times[|times| - 1] + p.blockFor || sweptAt <= LockEnd(p, Blocks(s, h)))
  {
    var fails := s.fails - Stale(p, s.fails, sweptAt);
    assert h in fails <==> h in s.fails && !IsStale(p, s.fails[h], sweptAt);
  }

  // ---- runs of any shape ----

  /** A lock was set by one of the source's failures since its last success, and not by the first few. */
  ghost predicate HasCause(p: Policy, s: State, h: Host) {
    h in s.fails ==>
      && 0 <= s.fails[h].count <= |Blocks(s, h)|
      && (s.fails[h].until == ZERO_TIME
          || exists i :: p.maxFails - 1 <= i < |Blocks(s, h)| && 0 <= i
                         && s.fails[h].until == Blocks(s, h)[i] + p.blockFor)
  }

  lemma StepKeepsCause(p: Policy, s: State, h: Host, step: Step)
    requires HasCause(p, s, h) && Enabled(s, step)
    ensures HasCause(p, Next(p, s, step), h)
  {
    var s', n := Next(p, s, step), |Blocks(s, h)|;
    if step.Failure? && step.host == h {
      assert Blocks(s', h) == Blocks(s, h) + [step.blockedAt];
      assert Blocks(s', h)[n] == step.blockedAt;
      if h in s.fails && s.fails[h].until != ZERO_TIME {
        var i :| p.maxFails - 1 <= i < n && 0 <= i && s.fails[h].until == Blocks(s, h)[i] + p.blockFor;
        assert Blocks(s', h)[i] == Blocks(s, h)[i];
      }
    }
  }

  lemma {:induction false} RunKeepsCause(p: Policy, s: State, h: Host, steps: seq<Step>)
    requires HasCause(p, s, h) && Run(p, s, steps)
    ensures HasCause(p, After(p, s, steps), h)
    decreases |steps|
  {
    if steps != [] {
      StepKeepsCause(p, s, h, steps[0]);
      RunKeepsCause(p, Next(p, s, steps[0]), h, steps[1..]);
    }
  }

  /** In every run, steady or not: a source that is turned away is not exempt, has failed at least maxFails
      times since its last success, and the maxFails-th or a later one of these failures is less than the
      blocking time ago. So no attempts of others count, and every lock ends by itself. */
  lemma RefusalHasCause(p: Policy, steps: seq<Step>, h: Host, sweptAt: int, checkedAt: int)
    requires Run(p, INITIAL, steps) && Enabled(After(p, INITIAL, steps), Attempt(h, sweptAt, checkedAt))
    requires var s := After(p, INITIAL, steps);
             Next(p, s, Attempt(h, sweptAt, checkedAt)).busy[h] == s.busy[h]
    ensures var blocks := Blocks(After(p, INITIAL, steps), h);
            !p.exempt(h)
            && exists i :: p.maxFails - 1 <= i < |blocks| && 0 <= i && checkedAt < blocks[i] + p.blockFor
  {
    RunKeepsCause(p, INITIAL, h, steps);
    RunMovesClock(p, INITIAL, steps);
  }

  lemma {:induction false} RunMovesClock(p: Policy, s: State, steps: seq<Step>)
    requires Run(p, s, steps)
    ensures s.clock <= After(p, s, steps).clock
    decreases |steps|
  {
    if steps != [] {
      RunMovesClock(p, Next(p, s, steps[0]), steps[1..]);
    }
  }
}
