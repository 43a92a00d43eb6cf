/** One lockout machine with two sets of parameters: bad tunnel tokens (server/server.go
    sweepAuthFails, handleTunnel, recordAuthFail) and bad panel passwords (panel/panel.go
    sweepFails, handleLogin). Times are nanoseconds; Go's zero time lies before every reading. */
module Lockout {
  import Maps

  type Host = string

  /** `exempt` are the sources that the lock does not stop. */
  datatype Policy = Policy(maxFails: int, blockFor: int, exempt: Host -> bool)

  const MINUTE := 60_000_000_000
  const ZERO_TIME := 0

  function TunnelPolicy(isLoopback: Host -> bool): Policy {
    Policy(10, 10 * MINUTE, isLoopback)
  }

  function PanelPolicy(): Policy {
    Policy(5, 10 * MINUTE, _ => false)
  }

  datatype Track = Track(count: int, lastFail: int, until: int)

  type Table = map<Host, Track>

  predicate IsStale(p: Policy, f: Track, now: int) {
    now > f.until && now - f.lastFail > p.blockFor
  }

  function Stale(p: Policy, fails: Table, now: int): set<Host> {
    set h | h in fails && IsStale(p, fails[h], now)
  }

  predicate Locked(p: Policy, fails: Table, host: Host, now: int) {
    host in fails && now < fails[host].until && !p.exempt(host)
  }

  function RecordFailure(p: Policy, fails: Table, host: Host, at: int, blockedAt: int): Table {
    var f := if host in fails then fails[host] else Track(0, ZERO_TIME, ZERO_TIME);
    if f.count + 1 >= p.maxFails then fails[host := Track(0, at, blockedAt + p.blockFor)]
    else fails[host := Track(f.count + 1, at, f.until)]
  }

  class FailTable {
    const policy: Policy
    var fails: Table

    constructor (policy: Policy)
      ensures this.policy == policy && fails == map[]
    {
      this.policy, fails := policy, map[];
    }

    /** Drop stale records, visiting them in an arbitrary order, then look the source up. */
    method Admit(host: Host, sweptAt: int, checkedAt: int) returns (ok: bool)
      modifies this
      ensures fails == old(fails) - Stale(policy, old(fails), sweptAt)
      ensures ok <==> !Locked(policy, fails, host, checkedAt)
    {
      ghost var stale := Stale(policy, fails, sweptAt);
      ghost var gone: set<Host> := {};
      var todo := fails.Keys;
      while todo != {}
        invariant todo <= old(fails).Keys && gone !! todo
        invariant gone <= stale <= gone + todo
        invariant fails == old(fails) - gone
        decreases todo
      {
        var h := Maps.AnyOf(todo);
        todo := todo - {h};
        if sweptAt > fails[h].until && sweptAt - fails[h].lastFail > policy.blockFor {
          Maps.RemoveOneMore(old(fails), gone, h);
          gone := gone + {h};
          fails := fails - {h};
        }
      }
      assert gone == stale;
      ok := !(host in fails && checkedAt < fails[host].until && !policy.exempt(host));
    }

    method Record(host: Host, at: int, blockedAt: int)
      modifies this
      ensures fails == RecordFailure(policy, old(fails), host, at, blockedAt)
    {
      if host !in fails {
        fails := fails[host := Track(0, ZERO_TIME, ZERO_TIME)];
      }
      var f := fails[host].(count := fails[host].count + 1, lastFail := at);
      if f.count >= policy.maxFails {
        f := f.(until := blockedAt + policy.blockFor, count := 0);
      }
      fails := fails[host := f];
    }

    method Forget(host: Host)
      modifies this
      ensures fails == old(fails) - {host}
    {
      fails := fails - {host};
    }
  }

  // ---- runs ----

  /** `busy` are the sources of the admitted attempts under way; `log[h]` are the times of h's
      failures since its last success, and `blocks[h]` what the clock said right after each of them. */
  datatype State = State(fails: Table, clock: int, busy: multiset<Host>, log: map<Host, seq<int>>,
                         blocks: map<Host, seq<int>>)

  datatype Step =
    | Attempt(host: Host, sweptAt: int, checkedAt: int)
    | Failure(host: Host, at: int, blockedAt: int)
    | Success(host: Host, at: int)
    | Abandon(host: Host, at: int)  // the attempt ended without a verdict

  const INITIAL := State(map[], ZERO_TIME + 1, multiset{}, map[], map[])

  function Log(s: State, h: Host): seq<int> {
    if h in s.log then s.log[h] else []
  }

  function Blocks(s: State, h: Host): seq<int> {
    if h in s.blocks then s.blocks[h] else []
  }

  predicate Enabled(s: State, step: Step) {
    match step
    case Attempt(h, sweptAt, checkedAt) => s.clock <= sweptAt <= checkedAt
    case Failure(h, at, blockedAt) => h in s.busy && s.clock <= at <= blockedAt
    case Success(h, at) => h in s.busy && s.clock <= at
    case Abandon(h, at) => h in s.busy && s.clock <= at
  }

  function Next(p: Policy, s: State, step: Step): State
    requires Enabled(s, step)
  {
    match step
    case Attempt(h, sweptAt, checkedAt) =>
      var fails := s.fails - Stale(p, s.fails, sweptAt);
      s.(fails := fails, clock := checkedAt,
         busy := if Locked(p, fails, h, checkedAt) then s.busy else s.busy + multiset{h})
    case Failure(h, at, blockedAt) =>
      State(RecordFailure(p, s.fails, h, at, blockedAt), blockedAt, s.busy - multiset{h},
            s.log[h := Log(s, h) + [at]], s.blocks[h := Blocks(s, h) + [blockedAt]])
    case Success(h, at) =>
      State(s.fails - {h}, at, s.busy - multiset{h}, s.log[h := []], s.blocks[h := []])
    case Abandon(h, at) => s.(clock := at, busy := s.busy - multiset{h})
  }

  ghost predicate Run(p: Policy, s: State, steps: seq<Step>)
    decreases |steps|
  {
    steps == [] || (Enabled(s, steps[0]) && Run(p, Next(p, s, steps[0]), steps[1..]))
  }

  ghost function After(p: Policy, s: State, steps: seq<Step>): State
    requires Run(p, s, steps)
    decreases |steps|
  {
    if steps == [] then s else After(p, Next(p, s, steps[0]), steps[1..])
  }

  /** At most k attempts of h are ever under way at once; other sources may do as they like. */
  ghost predicate AtMost(p: Policy, s: State, h: Host, k: nat, steps: seq<Step>)
    requires Run(p, s, steps)
    decreases |steps|
  {
    s.busy[h] <= k && (steps == [] || AtMost(p, Next(p, s, steps[0]), h, k, steps[1..]))
  }

  /** Any d + 1 consecutive failures span at least blockFor. */
  ghost predicate Spaced(p: Policy, d: int, times: seq<int>) {
    forall i, j :: 0 <= i < j < |times| && j == i + d ==> times[j] - times[i] >= p.blockFor
  }

  ghost predicate Ascending(times: seq<int>, clock: int) {
    forall i, j :: 0 <= i <= j < |times| ==> times[i] <= times[j] <= clock
  }

  predicate Sensible(p: Policy, h: Host) {
    p.maxFails >= 1 && p.blockFor >= 0 && !p.exempt(h)
  }

  /** Failure j of h is a guard: from the k-th failure after it on, all come at least blockFor later.
      Either that time has passed, or the source is locked and those still to fail are too few. */
  ghost predicate Guard(p: Policy, k: nat, s: State, h: Host, j: int) {
    var times := Log(s, h);
    && 0 <= j < |times|
    && (forall i :: j + k <= i < |times| ==> times[i] >= times[j] + p.blockFor)
    && (s.clock >= times[j] + p.blockFor
        || (|times| - j + s.busy[h] <= k && h in s.fails && s.fails[h].until >= times[j] + p.blockFor))
  }

  ghost predicate HasGuard(p: Policy, k: nat, s: State, h: Host, i: int) {
    exists j :: i <= j < i + p.maxFails && Guard(p, k, s, h, j)
  }

  /** Among any maxFails failures in a row there is a guard. */
  ghost predicate Guarded(p: Policy, k: nat, s: State, h: Host) {
    forall i :: 0 <= i && i + p.maxFails <= |Log(s, h)| ==> HasGuard(p, k, s, h, i)
  }

  /** The failures that the record counts come right after a guard, or are all there are. */
  ghost predicate RecordOk(p: Policy, k: nat, s: State, h: Host) {
    var n := |Log(s, h)|;
    if h in s.fails then
      var f := s.fails[h];
      && 0 <= f.count < p.maxFails && f.count <= n && n > 0 && f.lastFail == Log(s, h)[n - 1]
      && (f.count < n ==> Guard(p, k, s, h, n - f.count - 1))
    else n == 0 || Guard(p, k, s, h, n - 1)
  }

  ghost predicate Inv(p: Policy, k: nat, s: State, h: Host) {
    s.busy[h] <= k && Ascending(Log(s, h), s.clock) && Guarded(p, k, s, h) && RecordOk(p, k, s, h)
  }

  lemma FailureKeepsGuard(p: Policy, k: nat, s: State, h: Host, at: int, blockedAt: int, j: int)
    requires Sensible(p, h) && Enabled(s, Failure(h, at, blockedAt)) && Ascending(Log(s, h), s.clock)
    requires Guard(p, k, s, h, j)
    ensures Guard(p, k, Next(p, s, Failure(h, at, blockedAt)), h, j)
  {
    assert Log(Next(p, s, Failure(h, at, blockedAt)), h) == Log(s, h) + [at];
  }

  /** The failure that locks the source is a guard: the attempts under way are at most k - 1 others. */
  lemma LockIsGuard(p: Policy, k: nat, s: State, h: Host, at: int, blockedAt: int)
    requires Sensible(p, h) && 1 <= s.busy[h] <= k && Enabled(s, Failure(h, at, blockedAt))
    requires (if h in s.fails then s.fails[h].count else 0) + 1 >= p.maxFails
    ensures Guard(p, k, Next(p, s, Failure(h, at, blockedAt)), h, |Log(s, h)|)
  {
    assert Log(Next(p, s, Failure(h, at, blockedAt)), h) == Log(s, h) + [at];
  }

  lemma FailureIsAscending(p: Policy, s: State, h: Host, at: int, blockedAt: int)
    requires Ascending(Log(s, h), s.clock) && Enabled(s, Failure(h, at, blockedAt))
    ensures Ascending(Log(Next(p, s, Failure(h, at, blockedAt)), h), blockedAt)
  {
  }

  lemma FailureKeepsRecord(p: Policy, k: nat, s: State, h: Host, at: int, blockedAt: int)
    requires Sensible(p, h) && Inv(p, k, s, h) && Enabled(s, Failure(h, at, blockedAt))
    ensures RecordOk(p, k, Next(p, s, Failure(h, at, blockedAt)), h)
  {
    var n := |Log(s, h)|;
    assert Log(Next(p, s, Failure(h, at, blockedAt)), h) == Log(s, h) + [at];
    var count := if h in s.fails then s.fails[h].count else 0;
    if count + 1 >= p.maxFails {
      LockIsGuard(p, k, s, h, at, blockedAt);
    } else if count < n {
      FailureKeepsGuard(p, k, s, h, at, blockedAt, n - count - 1);
    }
  }

  lemma FailureKeepsGuarded(p: Policy, k: nat, s: State, h: Host, at: int, blockedAt: int)
    requires Sensible(p, h) && Inv(p, k, s, h) && Enabled(s, Failure(h, at, blockedAt))
    ensures Guarded(p, k, Next(p, s, Failure(h, at, blockedAt)), h)
  {
    var n, s' := |Log(s, h)|, Next(p, s, Failure(h, at, blockedAt));
    assert Log(s', h) == Log(s, h) + [at];
    var count := if h in s.fails then s.fails[h].count else 0;
    forall i | 0 <= i && i + p.maxFails <= n + 1 ensures HasGuard(p, k, s', h, i) {
      var j;
      if i + p.maxFails <= n {
        assert HasGuard(p, k, s, h, i);
        j :| i <= j < i + p.maxFails && Guard(p, k, s, h, j);
        FailureKeepsGuard(p, k, s, h, at, blockedAt, j);
      } else if count + 1 >= p.maxFails {
        j := n;
        LockIsGuard(p, k, s, h, at, blockedAt);
      } else {
        j := n - count - 1;
        FailureKeepsGuard(p, k, s, h, at, blockedAt, j);
      }
      assert Guard(p, k, s', h, j);
    }
  }

  lemma FailureKeepsInv(p: Policy, k: nat, s: State, h: Host, at: int, blockedAt: int)
    requires Sensible(p, h) && Inv(p, k, s, h) && Enabled(s, Failure(h, at, blockedAt))
    ensures Inv(p, k, Next(p, s, Failure(h, at, blockedAt)), h)
  {
    FailureIsAscending(p, s, h, at, blockedAt);
    FailureKeepsRecord(p, k, s, h, at, blockedAt);
    FailureKeepsGuarded(p, k, s, h, at, blockedAt);
  }

  /** A sweep drops a lock only when it has run out, and a lock that has not lets no attempt in. */
  lemma AttemptKeepsGuard(p: Policy, k: nat, s: State, h: Host, host: Host, sweptAt: int, checkedAt: int, j: int)
    requires Sensible(p, h) && Enabled(s, Attempt(host, sweptAt, checkedAt)) && Guard(p, k, s, h, j)
    ensures Guard(p, k, Next(p, s, Attempt(host, sweptAt, checkedAt)), h, j)
  {
  }

  lemma AttemptKeepsRecord(p: Policy, k: nat, s: State, h: Host, host: Host, sweptAt: int, checkedAt: int)
    requires Sensible(p, h) && Enabled(s, Attempt(host, sweptAt, checkedAt)) && RecordOk(p, k, s, h)
    requires k >= 1 && Ascending(Log(s, h), s.clock)
    ensures RecordOk(p, k, Next(p, s, Attempt(host, sweptAt, checkedAt)), h)
  {
    var n := |Log(s, h)|;
    if h in Stale(p, s.fails, sweptAt) {
      assert Log(s, h)[n - 1] + p.blockFor <= checkedAt;
    } else if h in s.fails {
      if s.fails[h].count < n {
        AttemptKeepsGuard(p, k, s, h, host, sweptAt, checkedAt, n - s.fails[h].count - 1);
      }
    } else if n > 0 {
      AttemptKeepsGuard(p, k, s, h, host, sweptAt, checkedAt, n - 1);
    }
  }

  lemma AttemptKeepsInv(p: Policy, k: nat, s: State, h: Host, host: Host, sweptAt: int, checkedAt: int)
    requires Sensible(p, h) && k >= 1 && Inv(p, k, s, h) && Enabled(s, Attempt(host, sweptAt, checkedAt))
    requires Next(p, s, Attempt(host, sweptAt, checkedAt)).busy[h] <= k
    ensures Inv(p, k, Next(p, s, Attempt(host, sweptAt, checkedAt)), h)
  {
    var s' := Next(p, s, Attempt(host, sweptAt, checkedAt));
    AttemptKeepsRecord(p, k, s, h, host, sweptAt, checkedAt);
    forall i | 0 <= i && i + p.maxFails <= |Log(s', h)| ensures HasGuard(p, k, s', h, i) {
      assert HasGuard(p, k, s, h, i);
      var j :| i <= j < i + p.maxFails && Guard(p, k, s, h, j);
      AttemptKeepsGuard(p, k, s, h, host, sweptAt, checkedAt, j);
    }
  }

  /** A step after which the source has the same record and failures, and no more attempts. */
  ghost predicate Mild(s: State, s': State, h: Host) {
    && Log(s', h) == Log(s, h) && s'.clock >= s.clock && s'.busy[h] <= s.busy[h]
    && (h in s.fails <==> h in s'.fails) && (h in s.fails ==> s'.fails[h] == s.fails[h])
  }

  lemma MildKeepsGuard(p: Policy, k: nat, s: State, s': State, h: Host, j: int)
    requires Mild(s, s', h) && Guard(p, k, s, h, j)
    ensures Guard(p, k, s', h, j)
  {
  }

  lemma MildKeepsInv(p: Policy, k: nat, s: State, s': State, h: Host)
    requires Mild(s, s', h) && Inv(p, k, s, h)
    ensures Inv(p, k, s', h)
  {
    var n := |Log(s, h)|;
    if h in s.fails && s.fails[h].count < n {
      MildKeepsGuard(p, k, s, s', h, n - s.fails[h].count - 1);
    } else if h !in s.fails && n > 0 {
      MildKeepsGuard(p, k, s, s', h, n - 1);
    }
    forall i | 0 <= i && i + p.maxFails <= n ensures HasGuard(p, k, s', h, i) {
      assert HasGuard(p, k, s, h, i);
      var j :| i <= j < i + p.maxFails && Guard(p, k, s, h, j);
      MildKeepsGuard(p, k, s, s', h, j);
    }
  }

  lemma StepKeepsInv(p: Policy, k: nat, s: State, h: Host, step: Step)
    requires Sensible(p, h) && k >= 1 && Inv(p, k, s, h) && Enabled(s, step) && Next(p, s, step).busy[h] <= k
    ensures Inv(p, k, Next(p, s, step), h)
  {
    match step
    case Attempt(host, sweptAt, checkedAt) => AttemptKeepsInv(p, k, s, h, host, sweptAt, checkedAt);
    case Failure(host, at, blockedAt) =>
      if host == h {
        FailureKeepsInv(p, k, s, h, at, blockedAt);
      } else {
        MildKeepsInv(p, k, s, Next(p, s, step), h);
      }
    case Success(host, _) =>
      if host != h {
        MildKeepsInv(p, k, s, Next(p, s, step), h);
      }
    case Abandon(_, _) => MildKeepsInv(p, k, s, Next(p, s, step), h);
  }

  lemma {:induction false} RunKeepsInv(p: Policy, k: nat, s: State, h: Host, steps: seq<Step>)
    requires Sensible(p, h) && k >= 1 && Inv(p, k, s, h) && Run(p, s, steps) && AtMost(p, s, h, k, steps)
    ensures Inv(p, k, After(p, s, steps), h)
    decreases |steps|
  {
    if steps != [] {
      StepKeepsInv(p, k, s, h, steps[0]);
      RunKeepsInv(p, k, Next(p, s, steps[0]), h, steps[1..]);
    }
  }

  /** Over every run in which at most k attempts of h are under way at once, whatever other sources do,
      however often records are swept or counts start again: any maxFails + k failures of h with no
      success between them span at least the blocking time. */
  lemma LockoutRate(p: Policy, k: nat, h: Host, steps: seq<Step>)
    requires Sensible(p, h) && k >= 1 && Run(p, INITIAL, steps) && AtMost(p, INITIAL, h, k, steps)
    ensures Spaced(p, p.maxFails + k - 1, Log(After(p, INITIAL, steps), h))
  {
    RunKeepsInv(p, k, INITIAL, h, steps);
    var s := After(p, INITIAL, steps);
    var times, d := Log(s, h), p.maxFails + k - 1;
    forall i | 0 <= i < i + d < |times| ensures times[i + d] - times[i] >= p.blockFor {
      assert HasGuard(p, k, s, h, i);
      var j :| i <= j < i + p.maxFails && Guard(p, k, s, h, j);
    }
  }

  /** The two instances, for attempts that do not overlap (k = 1) and for at most k at once: 10 + k bad
      tokens from a non-loopback host, or 5 + k bad panel passwords, take at least 10 minutes. */
  lemma LockoutInstances(isLoopback: Host -> bool, k: nat, h: Host, steps: seq<Step>, i: nat)
    requires k >= 1
    ensures var p := TunnelPolicy(isLoopback);
            !isLoopback(h) && Run(p, INITIAL, steps) && AtMost(p, INITIAL, h, k, steps) ==>
              var times := Log(After(p, INITIAL, steps), h);
              i + 9 + k < |times| ==> times[i + 9 + k] - times[i] >= 10 * MINUTE
    ensures var p := PanelPolicy();
            Run(p, INITIAL, steps) && AtMost(p, INITIAL, h, k, steps) ==>
              var times := Log(After(p, INITIAL, steps), h);
              i + 4 + k < |times| ==> times[i + 4 + k] - times[i] >= 10 * MINUTE
  {
    var p, q := TunnelPolicy(isLoopback), PanelPolicy();
    if !isLoopback(h) && Run(p, INITIAL, steps) && AtMost(p, INITIAL, h, k, steps) {
      LockoutRate(p, k, h, steps);
    }
    if Run(q, INITIAL, steps) && AtMost(q, INITIAL, h, k, steps) {
      LockoutRate(q, k, h, steps);
    }
  }

  // ---- the bound is exact ----

  /** All at moment 1: `singles` attempts that fail one after the other, then `attempts` attempts that
      are all admitted, then `failures` failures. */
  function Siege(h: Host, singles: nat, attempts: nat, failures: nat): seq<Step> {
    if singles > 0 then [Attempt(h, 1, 1)] + ([Failure(h, 1, 1)] + Siege(h, singles - 1, attempts, failures))
    else if attempts > 0 then [Attempt(h, 1, 1)] + Siege(h, 0, attempts - 1, failures)
    else if failures > 0 then [Failure(h, 1, 1)] + Siege(h, 0, 0, failures - 1)
    else []
  }

  /** Nothing is recorded of anyone, or only of h, who may fail `singles` times more without being locked. */
  ghost predicate Idle(p: Policy, s: State, h: Host, singles: nat) {
    (s.fails == map[] && (singles > 0 ==> singles < p.maxFails))
    || (p.blockFor >= 0 && s.fails.Keys == {h} && s.fails[h].until <= 1 && s.fails[h].lastFail == 1
        && (singles > 0 ==> s.fails[h].count + singles < p.maxFails))
  }

  ghost predicate Sieged(p: Policy, s: State, h: Host, k: nat, steps: seq<Step>, failures: nat) {
    && Run(p, s, steps) && AtMost(p, s, h, k, steps)
    && |Log(After(p, s, steps), h)| == |Log(s, h)| + failures
    && ((forall i :: 0 <= i < |Log(s, h)| ==> Log(s, h)[i] == 1) ==>
          forall i :: 0 <= i < |Log(s, h)| + failures ==> Log(After(p, s, steps), h)[i] == 1)
  }

  lemma SiegePrepend(p: Policy, s: State, h: Host, k: nat, step: Step, steps: seq<Step>, failures: nat)
    requires Enabled(s, step) && s.busy[h] <= k && (step == Attempt(h, 1, 1) || step == Failure(h, 1, 1))
    requires step.Failure? ==> failures > 0
    requires Sieged(p, Next(p, s, step), h, k, steps, if step.Failure? then failures - 1 else failures)
    ensures Sieged(p, s, h, k, [step] + steps, failures)
  {
    assert ([step] + steps)[1..] == steps;
    if step.Failure? {
      assert Log(Next(p, s, step), h) == Log(s, h) + [1];
    }
  }

  lemma IdleAdmits(p: Policy, s: State, h: Host, singles: nat)
    requires s.clock == 1 && Idle(p, s, h, singles)
    ensures Enabled(s, Attempt(h, 1, 1))
    ensures Next(p, s, Attempt(h, 1, 1)) == s.(busy := s.busy + multiset{h})
  {
    assert Stale(p, s.fails, 1) == {};
    assert s.fails - {} == s.fails;
  }

  lemma SingleFailure(p: Policy, s: State, h: Host, singles: nat)
    requires s.clock == 1 && h in s.busy && Idle(p, s, h, singles) && singles > 0 && p.blockFor >= 0
    ensures var s' := Next(p, s, Failure(h, 1, 1));
            Enabled(s, Failure(h, 1, 1)) && s'.clock == 1 && s'.busy == s.busy - multiset{h}
              && Idle(p, s', h, singles - 1)
  {
    var s' := Next(p, s, Failure(h, 1, 1));
    assert s'.fails.Keys == s.fails.Keys + {h};
  }

  lemma {:induction false} FailuresRun(p: Policy, s: State, h: Host, k: nat, failures: nat)
    requires s.clock == 1 && failures <= s.busy[h] <= k
    ensures Sieged(p, s, h, k, Siege(h, 0, 0, failures), failures)
    decreases failures
  {
    if failures > 0 {
      FailuresRun(p, Next(p, s, Failure(h, 1, 1)), h, k, failures - 1);
      SiegePrepend(p, s, h, k, Failure(h, 1, 1), Siege(h, 0, 0, failures - 1), failures);
    } else {
      assert After(p, s, []) == s;
    }
  }

  lemma {:induction false} AttemptsRun(p: Policy, s: State, h: Host, k: nat, attempts: nat, failures: nat)
    requires s.clock == 1 && failures <= s.busy[h] + attempts <= k && Idle(p, s, h, 0)
    ensures Sieged(p, s, h, k, Siege(h, 0, attempts, failures), failures)
    decreases attempts
  {
    if attempts > 0 {
      IdleAdmits(p, s, h, 0);
      AttemptsRun(p, Next(p, s, Attempt(h, 1, 1)), h, k, attempts - 1, failures);
      SiegePrepend(p, s, h, k, Attempt(h, 1, 1), Siege(h, 0, attempts - 1, failures), failures);
    } else {
      FailuresRun(p, s, h, k, failures);
    }
  }

  lemma {:induction false} SiegeRuns(p: Policy, s: State, h: Host, k: nat, singles: nat, attempts: nat)
    requires s.clock == 1 && s.busy[h] == 0 && 1 <= k && attempts <= k && p.blockFor >= 0 && Idle(p, s, h, singles)
    ensures Sieged(p, s, h, k, Siege(h, singles, attempts, attempts), singles + attempts)
    decreases singles
  {
    if singles > 0 {
      var s1 := s.(busy := s.busy + multiset{h});
      IdleAdmits(p, s, h, singles);
      SingleFailure(p, s1, h, singles);
      var rest := Siege(h, singles - 1, attempts, attempts);
      SiegeRuns(p, Next(p, s1, Failure(h, 1, 1)), h, k, singles - 1, attempts);
      SiegePrepend(p, s1, h, k, Failure(h, 1, 1), rest, singles + attempts);
      SiegePrepend(p, s, h, k, Attempt(h, 1, 1), [Failure(h, 1, 1)] + rest, singles + attempts);
    } else {
      AttemptsRun(p, s, h, k, attempts, attempts);
    }
  }

  ghost predicate KeepsSpacing(p: Policy, k: nat, h: Host, d: nat, steps: seq<Step>) {
    Run(p, INITIAL, steps) && AtMost(p, INITIAL, h, k, steps) ==> Spaced(p, d, Log(After(p, INITIAL, steps), h))
  }

  lemma WiderIsSpaced(p: Policy, d: nat, e: nat, times: seq<int>, clock: int)
    requires Spaced(p, d, times) && Ascending(times, clock) && 1 <= d <= e
    ensures Spaced(p, e, times)
  {
    forall i, j | 0 <= i < j < |times| && j == i + e ensures times[j] - times[i] >= p.blockFor {
      assert times[i + d] - times[i] >= p.blockFor && times[i + d] <= times[j];
    }
  }

  /** With at most k attempts under way at once, d + 1 failures in a row always span the blocking time
      if and only if d >= maxFails + k - 1; so the limit of maxFails + 1 failures is met by all such
      runs exactly when attempts do not overlap. */
  lemma LockoutRateIff(p: Policy, k: nat, h: Host, d: nat)
    requires Sensible(p, h) && p.blockFor > 0 && k >= 1 && d >= 1
    ensures (forall steps :: KeepsSpacing(p, k, h, d, steps)) <==> d >= p.maxFails + k - 1
  {
    if d >= p.maxFails + k - 1 {
      forall steps ensures KeepsSpacing(p, k, h, d, steps) {
        if Run(p, INITIAL, steps) && AtMost(p, INITIAL, h, k, steps) {
          LockoutRate(p, k, h, steps);
          RunKeepsInv(p, k, INITIAL, h, steps);
          var s := After(p, INITIAL, steps);
          WiderIsSpaced(p, p.maxFails + k - 1, d, Log(s, h), s.clock);
        }
      }
    } else {
      var steps := Siege(h, p.maxFails - 1, k, k);
      SiegeRuns(p, INITIAL, h, k, p.maxFails - 1, k);
      var times := Log(After(p, INITIAL, steps), h);
      assert times[d] - times[0] < p.blockFor;
      assert !KeepsSpacing(p, k, h, d, steps);
    }
  }

  /** Without a bound on the overlap there is none on the failures: any number of attempts may be
      admitted before the first one fails, and all of them may then fail at one moment. */
  lemma OverlappingAttemptsEscape(p: Policy, h: Host, n: nat) returns (steps: seq<Step>)
    ensures Run(p, INITIAL, steps)
    ensures var times := Log(After(p, INITIAL, steps), h);
            |times| == n && forall i :: 0 <= i < n ==> times[i] == 1
  {
    steps := Siege(h, 0, n, n);
    AttemptsRun(p, INITIAL, h, n, n, n);
  }
}
