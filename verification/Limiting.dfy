/** The shared token bucket (relay/limiter.go) and the copying loop that charges it before every
    write (relay/relay.go). Times and token counts are reals. */
module Limiting {
  import opened Streams

  const BYTES_PER_MBIT := 131072.0  // 1024 * 1024 / 8

  datatype Bucket = Bucket(tokens: real, last: real)

  function Refill(rate: real, b: Bucket, now: real): Bucket {
    var tokens := b.tokens + (now - b.last) * rate;
    Bucket(if tokens > rate then rate else tokens, now)
  }

  /** One pass of Wait's loop under the mutex: refill, then take n tokens if they are there. */
  function Poll(rate: real, b: Bucket, now: real, n: nat): (Bucket, bool) {
    var full := Refill(rate, b, now);
    if full.tokens >= n as real then (full.(tokens := full.tokens - n as real), true) else (full, false)
  }

  predicate Valid(rate: real, b: Bucket) {
    rate > 0.0 && 0.0 <= b.tokens <= rate
  }

  // ---- any interleaving of waiters is a sequence of polls ----

  datatype Attempt = Attempt(now: real, n: nat)

  predicate Ordered(since: real, polls: seq<Attempt>) {
    && (forall i :: 0 <= i < |polls| ==> since <= polls[i].now)
    && (forall i, j :: 0 <= i < j < |polls| ==> polls[i].now <= polls[j].now)
  }

  function After(rate: real, b: Bucket, polls: seq<Attempt>): Bucket {
    if polls == [] then b
    else Poll(rate, After(rate, b, polls[..|polls| - 1]), polls[|polls| - 1].now, polls[|polls| - 1].n).0
  }

  /** The bytes granted to all waiters together. */
  function Granted(rate: real, b: Bucket, polls: seq<Attempt>): nat {
    if polls == [] then 0
    else
      var front, last := polls[..|polls| - 1], polls[|polls| - 1];
      Granted(rate, b, front) + if Poll(rate, After(rate, b, front), last.now, last.n).1 then last.n else 0
  }

  /** What time span `span` pays for. */
  function Quota(rate: real, span: real): real {
    rate * span
  }

  lemma QuotaIsMonotone(rate: real, span: real)
    requires rate > 0.0 && span >= 0.0
    ensures Quota(rate, span) >= 0.0
  {
  }

  lemma QuotasAdd(rate: real, a: real, b: real, c: real)
    ensures Quota(rate, b - a) + Quota(rate, c - b) == Quota(rate, c - a)
  {
  }

  /** One poll: tokens stay within [0, rate], and what it takes out was there or was just earned. */
  lemma PollIsBounded(rate: real, b: Bucket, now: real, n: nat)
    requires Valid(rate, b) && b.last <= now
    ensures var (b', granted) := Poll(rate, b, now, n);
            && Valid(rate, b') && b'.last == now
            && b'.tokens + (if granted then n as real else 0.0) <= rate
            && b'.tokens + (if granted then n as real else 0.0) <= b.tokens + Quota(rate, now - b.last)
  {
    QuotaIsMonotone(rate, now - b.last);
    assert Quota(rate, now - b.last) == (now - b.last) * rate;
  }

  ghost predicate CanBeGranted(rate: real, n: nat) {
    exists b, now :: Valid(rate, b) && b.last <= now && Poll(rate, b, now, n).1
  }

  /** Which requests can ever be served: those of at most one second's quota. What callers ask for,
      16 KB chunks and datagrams of up to 65535 bytes, is below the quota of every limit. */
  lemma ServedIff(rate: real, n: nat)
    requires rate > 0.0
    ensures CanBeGranted(rate, n) <==> n as real <= rate
    ensures rate >= BYTES_PER_MBIT && n <= 65535 ==> CanBeGranted(rate, n)
  {
    var full := Bucket(rate, 0.0);
    if n as real <= rate {
      assert Quota(rate, 0.0) == 0.0 && (0.0 - full.last) * rate == 0.0;
      assert Valid(rate, full) && Poll(rate, full, 0.0, n).1;
    }
  }

  lemma {:induction false} RunStaysValid(rate: real, b: Bucket, polls: seq<Attempt>)
    requires Valid(rate, b) && Ordered(b.last, polls)
    ensures Valid(rate, After(rate, b, polls))
    ensures After(rate, b, polls).last == if polls == [] then b.last else polls[|polls| - 1].now
  {
    if polls != [] {
      var front, last := polls[..|polls| - 1], polls[|polls| - 1];
      RunStaysValid(rate, b, front);
      PollIsBounded(rate, After(rate, b, front), last.now, last.n);
    }
  }

  lemma {:induction false} TokensAndGrants(rate: real, b: Bucket, polls: seq<Attempt>)
    requires Valid(rate, b) && Ordered(b.last, polls) && polls != []
    ensures After(rate, b, polls).tokens + Granted(rate, b, polls) as real
         <= rate + Quota(rate, polls[|polls| - 1].now - polls[0].now)
  {
    var front, last := polls[..|polls| - 1], polls[|polls| - 1];
    RunStaysValid(rate, b, front);
    PollIsBounded(rate, After(rate, b, front), last.now, last.n);
    if front != [] {
      TokensAndGrants(rate, b, front);
      QuotasAdd(rate, polls[0].now, front[|front| - 1].now, last.now);
    }
  }

  lemma {:induction false} RunsConcatenate(rate: real, b: Bucket, p: seq<Attempt>, q: seq<Attempt>)
    ensures After(rate, b, p + q) == After(rate, After(rate, b, p), q)
    ensures Granted(rate, b, p + q) == Granted(rate, b, p) + Granted(rate, After(rate, b, p), q)
  {
    if q == [] {
      assert p + q == p;
    } else {
      assert (p + q)[..|p + q| - 1] == p + q[..|q| - 1];
      RunsConcatenate(rate, b, p, q[..|q| - 1]);
    }
  }

  lemma OrderedParts(since: real, p: seq<Attempt>, window: seq<Attempt>)
    requires Ordered(since, p + window)
    ensures Ordered(since, p)
    ensures Ordered(if p == [] then since else p[|p| - 1].now, window)
  {
    forall i, j | 0 <= i < j < |p| ensures p[i].now <= p[j].now {
      assert (p + window)[i] == p[i] && (p + window)[j] == p[j];
    }
    forall i | 0 <= i < |p| ensures since <= p[i].now {
      assert (p + window)[i] == p[i];
    }
    forall i, j | 0 <= i < j < |window| ensures window[i].now <= window[j].now {
      assert (p + window)[|p| + i] == window[i] && (p + window)[|p| + j] == window[j];
    }
    forall i | 0 <= i < |window| ensures (if p == [] then since else p[|p| - 1].now) <= window[i].now {
      assert (p + window)[|p| + i] == window[i];
      if p != [] {
        assert (p + window)[|p| - 1] == p[|p| - 1];
      }
    }
  }

  /** In every interleaving, over every window of it: whatever polls `p` came before, the bytes
      granted in the window are at most one second's quota plus the quota of the time it spans. */
  lemma WindowBound(rate: real, b: Bucket, p: seq<Attempt>, window: seq<Attempt>)
    requires Valid(rate, b) && Ordered(b.last, p + window) && window != []
    ensures Granted(rate, b, p + window) as real - Granted(rate, b, p) as real
         <= rate + Quota(rate, window[|window| - 1].now - window[0].now)
    ensures 0.0 <= After(rate, b, p + window).tokens <= rate
  {
    OrderedParts(b.last, p, window);
    RunsConcatenate(rate, b, p, window);
    RunStaysValid(rate, b, p);
    TokensAndGrants(rate, After(rate, b, p), window);
    RunStaysValid(rate, After(rate, b, p), window);
  }

  // ---- the writers behind one bucket ----

  /** Any number of pipe directions share a bucket made at time 0. inFlight[w] is what direction w
      was granted and has not finished writing; a write may be short. */
  datatype Pipes = Pipes(bucket: Bucket, inFlight: seq<nat>, written: nat)

  function NewPipes(rate: real, directions: nat): Pipes {
    Pipes(Bucket(rate, 0.0), seq(directions, w => 0), 0)
  }

  datatype Move = Ask(w: nat, now: real, n: nat) | Wrote(w: nat, k: nat)

  function Sum(s: seq<nat>): nat {
    if s == [] then 0 else s[0] + Sum(s[1..])
  }

  predicate CanMove(s: Pipes, m: Move) {
    match m
    case Ask(w, now, n) => w < |s.inFlight| && s.inFlight[w] == 0 && s.bucket.last <= now
    case Wrote(w, k) => w < |s.inFlight| && k <= s.inFlight[w]
  }

  function Moved(rate: real, s: Pipes, m: Move): Pipes
    requires CanMove(s, m)
  {
    match m
    case Ask(w, now, n) =>
      var (b, granted) := Poll(rate, s.bucket, now, n);
      s.(bucket := b, inFlight := if granted then s.inFlight[w := n] else s.inFlight)
    case Wrote(w, k) => s.(inFlight := s.inFlight[w := 0], written := s.written + k)
  }

  ghost predicate PipeRun(rate: real, s: Pipes, ms: seq<Move>)
    decreases |ms|
  {
    ms == [] || (CanMove(s, ms[0]) && PipeRun(rate, Moved(rate, s, ms[0]), ms[1..]))
  }

  ghost function AfterMoves(rate: real, s: Pipes, ms: seq<Move>): Pipes
    requires PipeRun(rate, s, ms)
    decreases |ms|
  {
    if ms == [] then s else AfterMoves(rate, Moved(rate, s, ms[0]), ms[1..])
  }

  lemma {:induction false} SumOfUpdate(s: seq<nat>, w: nat, n: nat)
    requires w < |s|
    ensures Sum(s[w := n]) == Sum(s) - s[w] + n
  {
    if w == 0 {
      assert s[w := n][1..] == s[1..];
    } else {
      assert s[w := n][1..] == s[1..][w - 1 := n];
      SumOfUpdate(s[1..], w - 1, n);
    }
  }

  lemma {:induction false} SumOfZeros(s: seq<nat>)
    requires forall w :: 0 <= w < |s| ==> s[w] == 0
    ensures Sum(s) == 0
  {
    if s != [] {
      SumOfZeros(s[1..]);
    }
  }

  ghost predicate PipesInv(rate: real, s: Pipes) {
    && Valid(rate, s.bucket) && s.bucket.last >= 0.0
    && s.bucket.tokens + (s.written + Sum(s.inFlight)) as real <= rate + Quota(rate, s.bucket.last)
  }

  lemma MoveKeepsInv(rate: real, s: Pipes, m: Move)
    requires PipesInv(rate, s) && CanMove(s, m)
    ensures PipesInv(rate, Moved(rate, s, m)) && Moved(rate, s, m).bucket.last >= s.bucket.last
  {
    match m
    case Ask(w, now, n) =>
      SumOfUpdate(s.inFlight, w, n);
      PollIsBounded(rate, s.bucket, now, n);
      QuotasAdd(rate, 0.0, s.bucket.last, now);
    case Wrote(w, k) =>
      SumOfUpdate(s.inFlight, w, 0);
  }

  lemma {:induction false} MovesKeepInv(rate: real, s: Pipes, ms: seq<Move>)
    requires PipesInv(rate, s) && PipeRun(rate, s, ms)
    ensures PipesInv(rate, AfterMoves(rate, s, ms))
    decreases |ms|
  {
    if ms != [] {
      MoveKeepsInv(rate, s, ms[0]);
      MovesKeepInv(rate, Moved(rate, s, ms[0]), ms[1..]);
    }
  }

  /** Whatever goes through both directions of all pipes that share a bucket, no more than
      rate * (1 + t) bytes are written by time t after its creation. */
  lemma WrittenBound(rate: real, directions: nat, ms: seq<Move>, t: real)
    requires rate > 0.0
    requires PipeRun(rate, NewPipes(rate, directions), ms)
    requires AfterMoves(rate, NewPipes(rate, directions), ms).bucket.last <= t
    ensures AfterMoves(rate, NewPipes(rate, directions), ms).written as real <= rate * (1.0 + t)
  {
    SumOfZeros(NewPipes(rate, directions).inFlight);
    MovesKeepInv(rate, NewPipes(rate, directions), ms);
    var s := AfterMoves(rate, NewPipes(rate, directions), ms);
    QuotasAdd(rate, 0.0, s.bucket.last, t);
    QuotaIsMonotone(rate, t - s.bucket.last);
    assert rate * (1.0 + t) == rate + Quota(rate, t);
  }

  // ---- pacing of a lone sender whose sleeps are exact ----

  /** One Wait when no time passes except in its own sleep. */
  function LoneWait(rate: real, b: Bucket, n: nat): Bucket
    requires rate > 0.0
  {
    var (first, granted) := Poll(rate, b, b.last, n);
    if granted then first else Poll(rate, first, first.last + (n as real - first.tokens) / rate, n).0
  }

  function LoneSend(rate: real, b: Bucket, ns: seq<nat>): Bucket
    requires rate > 0.0
  {
    if ns == [] then b else LoneWait(rate, LoneSend(rate, b, ns[..|ns| - 1]), ns[|ns| - 1])
  }

  function Total(ns: seq<nat>): nat {
    if ns == [] then 0 else Total(ns[..|ns| - 1]) + ns[|ns| - 1]
  }

  function Max0(x: real): real {
    if x > 0.0 then x else 0.0
  }

  lemma SleepEarnsTokens(rate: real, need: real)
    requires rate > 0.0
    ensures need / rate * rate == need
    ensures need >= 0.0 ==> need / rate >= 0.0
  {
  }

  lemma Fractions(rate: real, a: real, b: real)
    requires rate > 0.0
    ensures a / rate + b / rate == (a + b) / rate
  {
    SleepEarnsTokens(rate, a);
    SleepEarnsTokens(rate, b);
    assert (a / rate + b / rate) * rate == a + b;
  }

  lemma LoneWaitSleepsExactly(rate: real, b: Bucket, n: nat)
    requires Valid(rate, b) && n as real <= rate
    ensures LoneWait(rate, b, n) == if b.tokens >= n as real then Bucket(b.tokens - n as real, b.last)
                                    else Bucket(0.0, b.last + (n as real - b.tokens) / rate)
  {
    var need := n as real - b.tokens;
    SleepEarnsTokens(rate, need);
    assert (b.last - b.last) * rate == 0.0;
    assert (b.last + need / rate - b.last) * rate == need;
  }

  /** The bucket of a lone sender after s bytes. */
  function Paced(rate: real, s: real): Bucket
    requires rate > 0.0
  {
    Bucket(Max0(rate - s), Max0((s - rate) / rate))
  }

  lemma LoneWaitKeepsPace(rate: real, s: real, n: nat)
    requires rate > 0.0 && s >= 0.0 && n as real <= rate
    ensures LoneWait(rate, Paced(rate, s), n) == Paced(rate, s + n as real)
  {
    LoneWaitSleepsExactly(rate, Paced(rate, s), n);
    QuotientSign(rate, s - rate);
    QuotientSign(rate, s + n as real - rate);
    Fractions(rate, s - rate, n as real);
  }

  /** A lone sender of S bytes that starts with a full bucket at time 0 finishes at
      max(0, (S - rate) / rate): the first second's quota is free, the rest is paced exactly. */
  lemma {:induction false} LoneSenderPace(rate: real, ns: seq<nat>)
    requires rate > 0.0 && forall i :: 0 <= i < |ns| ==> ns[i] as real <= rate
    ensures LoneSend(rate, Bucket(rate, 0.0), ns).last == Max0((Total(ns) as real - rate) / rate)
    ensures LoneSend(rate, Bucket(rate, 0.0), ns) == Paced(rate, Total(ns) as real)
  {
    if ns == [] {
      QuotientSign(rate, 0.0 - rate);
    } else {
      LoneSenderPace(rate, ns[..|ns| - 1]);
      LoneWaitKeepsPace(rate, Total(ns[..|ns| - 1]) as real, ns[|ns| - 1]);
    }
  }

  lemma QuotientSign(rate: real, x: real)
    requires rate > 0.0
    ensures x > 0.0 <==> x / rate > 0.0
  {
    SleepEarnsTokens(rate, x);
  }

  // ---- the limiter itself ----

  /** The clock: time never goes back, and a sleep may last longer than asked for. */
  class Clock {
    var now: real

    constructor ()
    {
      now := 0.0;
    }

    /** Any length of time. */
    method Duration() returns (d: real)
      ensures d >= 0.0
    {
      d := *;
      if d < 0.0 {
        d := -d;
      }
    }

    method Now() returns (t: real)
      modifies this
      ensures t == now >= old(now)
    {
      var passed := Duration();
      now := now + passed;
      t := now;
    }

    method Sleep(d: real)
      modifies this
      ensures now >= old(now) + d && now >= old(now)
    {
      var extra := Duration();
      now := now + (if d > 0.0 then d else 0.0) + extra;
    }
  }

  class Limiter {
    const rate: real
    var tokens: real
    var last: real

    ghost function View(): Bucket
      reads this
    {
      Bucket(tokens, last)
    }

    constructor (rate: real, now: real)
      ensures this.rate == rate && View() == Bucket(rate, now)
    {
      this.rate, tokens, last := rate, rate, now;
    }

    /** One pass of Wait's loop, between Lock and Unlock. */
    method TryTake(now: real, n: nat) returns (granted: bool)
      modifies this
      ensures (View(), granted) == Poll(rate, old(View()), now, n)
    {
      tokens := tokens + (now - last) * rate;
      last := now;
      if tokens > rate {
        tokens := rate;
      }
      if tokens >= n as real {
        tokens := tokens - n as real;
        return true;
      }
      return false;
    }
  }

  /** No limit is a nil limiter; every limit pays for at least 131072 bytes a second. */
  method NewLimiter(mbps: int, clock: Clock) returns (l: Limiter?)
    modifies clock
    ensures l == null <==> mbps <= 0
    ensures l != null ==> fresh(l) && l.rate == mbps as real * 131072.0 && l.rate >= 131072.0
    ensures l != null ==> Valid(l.rate, l.View()) && l.tokens == l.rate && l.last == clock.now
  {
    if mbps <= 0 {
      return null;
    }
    var now := clock.Now();
    l := new Limiter(mbps as real * BYTES_PER_MBIT, now);
  }

  /** A poll at `first` that is refused, and a sleep until `now` for at least the missing tokens. */
  ghost predicate RefusedOnce(rate: real, before: Bucket, n: nat, first: real, now: real)
    requires rate > 0.0
  {
    && !Poll(rate, before, first, n).1
    && now - first >= (n as real - Poll(rate, before, first, n).0.tokens) / rate
  }

  lemma SecondPollIsGranted(rate: real, before: Bucket, n: nat, first: real, now: real)
    requires Valid(rate, before) && before.last <= first && n as real <= rate
    requires RefusedOnce(rate, before, n, first, now)
    ensures first <= now && Poll(rate, Poll(rate, before, first, n).0, now, n).1
  {
    PollIsBounded(rate, before, first, n);
    var need := n as real - Poll(rate, before, first, n).0.tokens;
    SleepEarnsTokens(rate, need);
    QuotasAdd(rate, 0.0, need / rate, now - first);
    QuotaIsMonotone(rate, now - first - need / rate);
    assert Quota(rate, need / rate) == need;
    assert Quota(rate, now - first) == (now - first) * rate;
  }

  /** A refused poll of one waiter, what others polled while it slept, and when it woke up. */
  datatype Round = Round(at: real, others: seq<Attempt>, woke: real)

  function AfterRounds(rate: real, b: Bucket, n: nat, rounds: seq<Round>): Bucket {
    if rounds == [] then b
    else
      var front, last := rounds[..|rounds| - 1], rounds[|rounds| - 1];
      After(rate, Poll(rate, AfterRounds(rate, b, n, front), last.at, n).0, last.others)
  }

  /** Each round began with a refusal and slept long enough to earn what was missing. */
  ghost predicate AllRefused(rate: real, b: Bucket, n: nat, rounds: seq<Round>)
    requires rate > 0.0
  {
    rounds == [] ||
    var front, last := rounds[..|rounds| - 1], rounds[|rounds| - 1];
    AllRefused(rate, b, n, front) && RefusedOnce(rate, AfterRounds(rate, b, n, front), n, last.at, last.woke)
  }

  /** All polls of the rounds, the waiter's and the others', in their order. */
  function AllPolls(n: nat, rounds: seq<Round>): seq<Attempt> {
    if rounds == [] then []
    else
      var last := rounds[|rounds| - 1];
      AllPolls(n, rounds[..|rounds| - 1]) + ([Attempt(last.at, n)] + last.others)
  }

  lemma {:induction false} RoundsArePolls(rate: real, b: Bucket, n: nat, rounds: seq<Round>)
    ensures After(rate, b, AllPolls(n, rounds)) == AfterRounds(rate, b, n, rounds)
  {
    if rounds != [] {
      var front, last := rounds[..|rounds| - 1], rounds[|rounds| - 1];
      RoundsArePolls(rate, b, n, front);
      RunsConcatenate(rate, b, AllPolls(n, front), [Attempt(last.at, n)] + last.others);
      RunsConcatenate(rate, After(rate, b, AllPolls(n, front)), [Attempt(last.at, n)], last.others);
      AfterOneMore(rate, AfterRounds(rate, b, n, front), [], Attempt(last.at, n));
      assert [] + [Attempt(last.at, n)] == [Attempt(last.at, n)];
    }
  }

  lemma AfterOneMore(rate: real, b: Bucket, polls: seq<Attempt>, p: Attempt)
    ensures After(rate, b, polls + [p]) == Poll(rate, After(rate, b, polls), p.now, p.n).0
  {
    assert (polls + [p])[..|polls|] == polls;
  }

  lemma OrderedConcat(since: real, p: seq<Attempt>, q: seq<Attempt>, middle: real)
    requires Ordered(since, p) && (forall i :: 0 <= i < |p| ==> p[i].now <= middle)
    requires since <= middle && Ordered(middle, q)
    ensures Ordered(since, p + q)
  {
  }

  /** Other waiters poll, one after the other. */
  method OthersPoll(l: Limiter, clock: Clock, amounts: seq<nat>) returns (ghost polls: seq<Attempt>)
    requires Valid(l.rate, l.View()) && l.last <= clock.now
    modifies clock, l
    ensures Valid(l.rate, l.View()) && l.last <= clock.now && old(clock.now) <= clock.now
    ensures |polls| == |amounts| && Ordered(old(clock.now), polls) && forall k :: 0 <= k < |polls| ==>
        polls[k].now <= clock.now
    ensures l.View() == After(l.rate, old(l.View()), polls)
  {
    polls := [];
    for i := 0 to |amounts|
      invariant |polls| == i && Valid(l.rate, l.View()) && l.last <= clock.now && old(clock.now) <= clock.now
      invariant Ordered(old(clock.now), polls) && forall k :: 0 <= k < i ==> polls[k].now <= clock.now
      invariant l.View() == After(l.rate, old(l.View()), polls)
    {
      var now := clock.Now();
      PollIsBounded(l.rate, l.View(), now, amounts[i]);
      var _ := l.TryTake(now, amounts[i]);
      AfterOneMore(l.rate, old(l.View()), polls, Attempt(now, amounts[i]));
      polls := polls + [Attempt(now, amounts[i])];
    }
  }

  /** Once the others have stopped, a waiter that has slept is granted. */
  lemma LastRoundIsGranted(rate: real, b: Bucket, n: nat, rounds: seq<Round>, now: real)
    requires Valid(rate, b) && n as real <= rate && rounds != [] && AllRefused(rate, b, n, rounds)
    requires Ordered(b.last, AllPolls(n, rounds))
    requires rounds[|rounds| - 1].others == [] && rounds[|rounds| - 1].woke <= now
    ensures Poll(rate, AfterRounds(rate, b, n, rounds), now, n).1
  {
    var front, last := rounds[..|rounds| - 1], rounds[|rounds| - 1];
    OrderedParts(b.last, AllPolls(n, front), [Attempt(last.at, n)] + last.others);
    RunStaysValid(rate, b, AllPolls(n, front));
    RoundsArePolls(rate, b, n, front);
    var tail := [Attempt(last.at, n)] + last.others;
    assert tail[0].now == last.at;
    SecondPollIsGranted(rate, AfterRounds(rate, b, n, front), n, last.at, now);
  }

  lemma OneMoreRound(rate: real, b: Bucket, n: nat, rounds: seq<Round>, round: Round, woke: real)
    requires rate > 0.0 && AllRefused(rate, b, n, rounds) && round.woke == woke
    requires RefusedOnce(rate, AfterRounds(rate, b, n, rounds), n, round.at, woke)
    ensures AllRefused(rate, b, n, rounds + [round])
    ensures AfterRounds(rate, b, n, rounds + [round])
         == After(rate, Poll(rate, AfterRounds(rate, b, n, rounds), round.at, n).0, round.others)
    ensures AllPolls(n, rounds + [round]) == AllPolls(n, rounds) + ([Attempt(round.at, n)] + round.others)
  {
    assert (rounds + [round])[..|rounds|] == rounds;
  }

  /** A waiter that has been through `rounds` by `now` and left the bucket at `v`. */
  ghost predicate Standing(rate: real, b: Bucket, n: nat, rounds: seq<Round>, now: real, v: Bucket)
    requires rate > 0.0
  {
    && b.last <= now && Ordered(b.last, AllPolls(n, rounds))
    && (forall k :: 0 <= k < |AllPolls(n, rounds)| ==> AllPolls(n, rounds)[k].now <= now)
    && v == AfterRounds(rate, b, n, rounds) && AllRefused(rate, b, n, rounds)
  }

  lemma RoundKeepsStanding(rate: real, b: Bucket, n: nat, rounds: seq<Round>, round: Round, now: real, v: Bucket,
                           later: real)
    requires rate > 0.0 && Standing(rate, b, n, rounds, now, v) && now <= round.at <= round.woke <= later
    requires RefusedOnce(rate, v, n, round.at, round.woke) && Ordered(round.woke, round.others)
    requires forall k :: 0 <= k < |round.others| ==> round.others[k].now <= later
    ensures Standing(rate, b, n, rounds + [round], later, After(rate, Poll(rate, v, round.at, n).0, round.others))
  {
    OneMoreRound(rate, b, n, rounds, round, round.woke);
    var tail := [Attempt(round.at, n)] + round.others;
    OrderedConcat(b.last, AllPolls(n, rounds), tail, round.at);
  }

  lemma StandingIsOrdered(rate: real, b: Bucket, n: nat, rounds: seq<Round>, now: real, v: Bucket, at: real)
    requires rate > 0.0 && Standing(rate, b, n, rounds, now, v) && now <= at
    ensures Ordered(b.last, AllPolls(n, rounds) + [Attempt(at, n)])
  {
    OrderedConcat(b.last, AllPolls(n, rounds), [Attempt(at, n)], at);
  }

  /** The lock is given up for the length of a sleep; others may poll before it is taken again. */
  method SleepAmongOthers(l: Limiter, clock: Clock, n: nat, amounts: seq<nat>)
    returns (ghost polls: seq<Attempt>, ghost woke: real)
    requires Valid(l.rate, l.View()) && l.last <= clock.now
    modifies clock, l
    ensures Valid(l.rate, l.View()) && l.last <= clock.now && old(clock.now) <= clock.now
    ensures old(clock.now) <= woke <= clock.now && woke - old(clock.now) >= (n as real - old(l.tokens)) / l.rate
    ensures |polls| == |amounts| && Ordered(woke, polls) && forall k :: 0 <= k < |polls| ==> polls[k].now <= clock.now
    ensures l.View() == After(l.rate, old(l.View()), polls)
  {
    var need := n as real - l.tokens;
    clock.Sleep(need / l.rate);
    woke := clock.now;
    polls := OthersPoll(l, clock, amounts);
  }

  /** One turn of the loop: poll, and if that is refused, sleep while others poll. */
  method WaitTurn(l: Limiter, clock: Clock, n: nat, ghost b: Bucket, ghost rounds: seq<Round>, amounts: seq<nat>)
    returns (granted: bool, ghost round: Round)
    requires Valid(l.rate, l.View()) && l.last <= clock.now
    requires Standing(l.rate, b, n, rounds, clock.now, l.View())
    modifies clock, l
    ensures Valid(l.rate, l.View()) && l.last <= clock.now && old(clock.now) <= round.at <= clock.now
    ensures granted <==> Poll(l.rate, old(l.View()), round.at, n).1
    ensures granted ==> l.View() == Poll(l.rate, old(l.View()), round.at, n).0
                        && Ordered(b.last, AllPolls(n, rounds) + [Attempt(round.at, n)])
    ensures !granted ==> Standing(l.rate, b, n, rounds + [round], clock.now, l.View())
                         && |round.others| == |amounts| && round.woke <= clock.now
  {
    ghost var before, since := l.View(), clock.now;
    var now := clock.Now();
    round := Round(now, [], now);
    PollIsBounded(l.rate, before, now, n);
    granted := l.TryTake(now, n);
    if granted {
      StandingIsOrdered(l.rate, b, n, rounds, since, before, now);
    } else {
      ghost var polls, woke := SleepAmongOthers(l, clock, n, amounts);
      round := Round(now, polls, woke);
      RoundKeepsStanding(l.rate, b, n, rounds, round, since, before, clock.now);
    }
  }

  /** A waiter among others, watched for |others| + 2 polls: `others[k]` is what other waiters ask for
      during its k-th sleep. It is granted exactly if it asks for at most one second's quota: its polls are
      refused, with a sleep after each, until one is granted, at the latest the second one after the others
      have stopped. A larger request is refused however long one watches. The bucket has then seen the
      polls of all, in the order of their times. */
  method Wait(l: Limiter?, clock: Clock, n: int, others: seq<seq<nat>>)
    returns (granted: bool, ghost rounds: seq<Round>, ghost at: real)
    requires l != null ==> Valid(l.rate, l.View()) && l.last <= clock.now
    modifies clock, l
    ensures old(clock.now) <= clock.now
    ensures l != null ==> Valid(l.rate, l.View()) && l.last <= clock.now
    ensures granted <==> l == null || n <= 0 || n as real <= l.rate
    ensures l != null && n <= 0 ==> l.View() == old(l.View())
    ensures l != null && n > 0 ==> AllRefused(l.rate, old(l.View()), n, rounds)
    ensures l != null && n > 0 && granted ==>
              && |rounds| <= |others| + 1
              && Ordered(old(l.last), AllPolls(n, rounds) + [Attempt(at, n)])
              && Poll(l.rate, AfterRounds(l.rate, old(l.View()), n, rounds), at, n) == (l.View(), true)
    ensures l != null && !granted ==>
              && |rounds| == |others| + 2
              && Ordered(old(l.last), AllPolls(n, rounds))
              && l.View() == AfterRounds(l.rate, old(l.View()), n, rounds)
  {
    rounds, at := [], 0.0;
    if l == null || n <= 0 {
      return true, rounds, at;
    }
    ghost var b := l.View();
    var sleeps: nat := 0;
    while sleeps < |others| + 2
      invariant Valid(l.rate, l.View()) && old(clock.now) <= clock.now && l.last <= clock.now
      invariant sleeps == |rounds| <= |others| + 2
      invariant Standing(l.rate, b, n, rounds, clock.now, l.View())
      invariant sleeps > |others| ==> rounds[sleeps - 1].others == [] && rounds[sleeps - 1].woke <= clock.now
      invariant sleeps == |others| + 2 ==> n as real > l.rate
    {
      ghost var before := l.View();
      ghost var turn;
      granted, turn := WaitTurn(l, clock, n, b, rounds, if sleeps < |others| then others[sleeps] else []);
      at := turn.at;
      TurnEnds(l.rate, b, n, rounds, before, at);
      if granted {
        return;
      }
      rounds := rounds + [turn];
      sleeps := sleeps + 1;
    }
    granted := false;
  }

  /** When the next poll is granted for certain, and when for certain it is not. */
  lemma TurnEnds(rate: real, b: Bucket, n: nat, rounds: seq<Round>, v: Bucket, at: real)
    requires Valid(rate, b) && Valid(rate, v) && v.last <= at && v == AfterRounds(rate, b, n, rounds)
    requires AllRefused(rate, b, n, rounds) && Ordered(b.last, AllPolls(n, rounds))
    ensures n as real > rate ==> !Poll(rate, v, at, n).1
    ensures n as real <= rate && rounds != [] && rounds[|rounds| - 1].others == [] && rounds[|rounds| - 1].woke <= at
        ==> Poll(rate, v, at, n).1
  {
    PollIsBounded(rate, v, at, n);
    if n as real <= rate && rounds != [] && rounds[|rounds| - 1].others == [] && rounds[|rounds| - 1].woke <= at {
      LastRoundIsGranted(rate, b, n, rounds, at);
    }
  }

  // ---- what one direction does, as moves of the pipes ----

  /** Two idle directions on a bucket as it stands: number 0, and number 1 for everyone else. */
  function Shared(b: Bucket): Pipes {
    Pipes(b, [0, 0], 0)
  }

  function WrittenBy(w: nat, ms: seq<Move>): nat {
    if ms == [] then 0
    else WrittenBy(w, ms[..|ms| - 1]) + if ms[|ms| - 1].Wrote? && ms[|ms| - 1].w == w then ms[|ms| - 1].k else 0
  }

  /** The moves lead the bucket from `b` to `b'`, nothing is under way afterwards, and direction 0 has
      written n bytes. */
  ghost predicate Follows(rate: real, b: Bucket, ms: seq<Move>, b': Bucket, n: nat) {
    && PipeRun(rate, Shared(b), ms)
    && AfterMoves(rate, Shared(b), ms).bucket == b' && AfterMoves(rate, Shared(b), ms).inFlight == [0, 0]
    && WrittenBy(0, ms) == n
  }

  /** Direction 0 is granted n bytes at `at`, after moves in which it wrote nothing. */
  ghost predicate Charged(rate: real, b: Bucket, before: seq<Move>, at: real, n: nat, b': Bucket) {
    && PipeRun(rate, Shared(b), before)
    && Follows(rate, b, before, AfterMoves(rate, Shared(b), before).bucket, 0)
    && AfterMoves(rate, Shared(b), before).bucket.last <= at
    && Poll(rate, AfterMoves(rate, Shared(b), before).bucket, at, n) == (b', true)
  }

  lemma {:induction false} MovesConcat(rate: real, s: Pipes, p: seq<Move>, q: seq<Move>)
    requires PipeRun(rate, s, p) && PipeRun(rate, AfterMoves(rate, s, p), q)
    ensures PipeRun(rate, s, p + q) && AfterMoves(rate, s, p + q) == AfterMoves(rate, AfterMoves(rate, s, p), q)
    decreases |p|
  {
    if p == [] {
      assert p + q == q;
    } else {
      assert (p + q)[1..] == p[1..] + q;
      MovesConcat(rate, Moved(rate, s, p[0]), p[1..], q);
    }
  }

  lemma {:induction false} WrittenByConcat(w: nat, p: seq<Move>, q: seq<Move>)
    ensures WrittenBy(w, p + q) == WrittenBy(w, p) + WrittenBy(w, q)
  {
    if q == [] {
      assert p + q == p;
    } else {
      assert (p + q)[..|p + q| - 1] == p + q[..|q| - 1];
      WrittenByConcat(w, p, q[..|q| - 1]);
    }
  }

  /** How much was written before makes no difference. */
  lemma {:induction false} MovesShift(rate: real, s: Pipes, ms: seq<Move>, d: nat)
    requires PipeRun(rate, s, ms)
    ensures var t := s.(written := s.written + d);
            PipeRun(rate, t, ms)
            && AfterMoves(rate, t, ms) == AfterMoves(rate, s, ms).(written := AfterMoves(rate, s, ms).written + d)
    decreases |ms|
  {
    if ms != [] {
      MovesShift(rate, Moved(rate, s, ms[0]), ms[1..], d);
    }
  }

  lemma FollowsConcat(rate: real, b: Bucket, p: seq<Move>, b1: Bucket, n: nat, q: seq<Move>, b2: Bucket, m: nat)
    requires Follows(rate, b, p, b1, n) && Follows(rate, b1, q, b2, m)
    ensures Follows(rate, b, p + q, b2, n + m)
  {
    MovesShift(rate, Shared(b1), q, AfterMoves(rate, Shared(b), p).written);
    MovesConcat(rate, Shared(b), p, q);
    WrittenByConcat(0, p, q);
  }

  lemma NothingFollows(rate: real, b: Bucket)
    ensures Follows(rate, b, [], b, 0)
  {
    assert AfterMoves(rate, Shared(b), []) == Shared(b);
  }

  /** Direction w asks, and writes k bytes of what it was granted. */
  function Asked(rate: real, b: Bucket, w: nat, p: Attempt, k: nat): seq<Move> {
    if Poll(rate, b, p.now, p.n).1 then [Ask(w, p.now, p.n), Wrote(w, k)] else [Ask(w, p.now, p.n)]
  }

  lemma AskedFollows(rate: real, b: Bucket, w: nat, p: Attempt, k: nat)
    requires b.last <= p.now && k <= p.n && w < 2
    ensures var (b', granted) := Poll(rate, b, p.now, p.n);
            Follows(rate, b, Asked(rate, b, w, p, k), b', if granted && w == 0 then k else 0)
  {
    var ms, s := Asked(rate, b, w, p, k), Shared(b);
    var s1 := Moved(rate, s, Ask(w, p.now, p.n));
    assert CanMove(s, ms[0]);
    if Poll(rate, b, p.now, p.n).1 {
      var s2 := Moved(rate, s1, Wrote(w, k));
      assert ms[1..] == [Wrote(w, k)] && ms[1..][1..] == [];
      assert PipeRun(rate, s2, []) && AfterMoves(rate, s2, []) == s2;
      assert PipeRun(rate, s1, ms[1..]) && AfterMoves(rate, s1, ms[1..]) == s2;
      assert s2.inFlight == [0, 0];
      assert ms[..1] == [ms[0]] && ms[..1][..0] == [];
      assert WrittenBy(0, ms[..1]) == 0;
    } else {
      assert ms[1..] == [] && ms[..0] == [];
      assert PipeRun(rate, s1, []) && AfterMoves(rate, s1, []) == s1;
    }
  }

  /** What everyone else polled; they write all they are granted. */
  function OthersAsked(rate: real, b: Bucket, polls: seq<Attempt>): seq<Move> {
    if polls == [] then []
    else
      var front, last := polls[..|polls| - 1], polls[|polls| - 1];
      OthersAsked(rate, b, front) + Asked(rate, After(rate, b, front), 1, last, last.n)
  }

  lemma {:induction false} OthersFollow(rate: real, b: Bucket, polls: seq<Attempt>)
    requires Valid(rate, b) && Ordered(b.last, polls)
    ensures Follows(rate, b, OthersAsked(rate, b, polls), After(rate, b, polls), 0)
  {
    if polls == [] {
      NothingFollows(rate, b);
    } else {
      var front, last := polls[..|polls| - 1], polls[|polls| - 1];
      OthersFollow(rate, b, front);
      RunStaysValid(rate, b, front);
      AskedFollows(rate, After(rate, b, front), 1, last, last.n);
      FollowsConcat(rate, b, OthersAsked(rate, b, front), After(rate, b, front), 0,
                    Asked(rate, After(rate, b, front), 1, last, last.n), After(rate, b, polls), 0);
    }
  }

  /** A waiter's refused polls, with what the others did while it slept. */
  function RoundsAsked(rate: real, b: Bucket, n: nat, rounds: seq<Round>): seq<Move> {
    if rounds == [] then []
    else
      var front, last := rounds[..|rounds| - 1], rounds[|rounds| - 1];
      var v := AfterRounds(rate, b, n, front);
      RoundsAsked(rate, b, n, front)
      + (Asked(rate, v, 0, Attempt(last.at, n), 0) + OthersAsked(rate, Poll(rate, v, last.at, n).0, last.others))
  }

  lemma RoundFollows(rate: real, v: Bucket, n: nat, round: Round)
    requires Valid(rate, v) && Ordered(v.last, [Attempt(round.at, n)] + round.others) && !Poll(rate, v, round.at, n).1
    ensures var v1 := Poll(rate, v, round.at, n).0;
            Follows(rate, v, Asked(rate, v, 0, Attempt(round.at, n), 0) + OthersAsked(rate, v1, round.others),
                    After(rate, v1, round.others), 0)
  {
    var polls := [Attempt(round.at, n)] + round.others;
    assert polls[0].now == round.at;
    OrderedParts(v.last, [Attempt(round.at, n)], round.others);
    PollIsBounded(rate, v, round.at, n);
    var v1 := Poll(rate, v, round.at, n).0;
    AskedFollows(rate, v, 0, Attempt(round.at, n), 0);
    OthersFollow(rate, v1, round.others);
    FollowsConcat(rate, v, Asked(rate, v, 0, Attempt(round.at, n), 0), v1, 0, OthersAsked(rate, v1, round.others),
                  After(rate, v1, round.others), 0);
  }

  lemma {:induction false} RoundsFollow(rate: real, b: Bucket, n: nat, rounds: seq<Round>)
    requires Valid(rate, b) && AllRefused(rate, b, n, rounds) && Ordered(b.last, AllPolls(n, rounds))
    ensures Follows(rate, b, RoundsAsked(rate, b, n, rounds), AfterRounds(rate, b, n, rounds), 0)
  {
    if rounds == [] {
      NothingFollows(rate, b);
    } else {
      var front, last := rounds[..|rounds| - 1], rounds[|rounds| - 1];
      var v := AfterRounds(rate, b, n, front);
      OrderedParts(b.last, AllPolls(n, front), [Attempt(last.at, n)] + last.others);
      RoundsFollow(rate, b, n, front);
      RoundsArePolls(rate, b, n, front);
      RunStaysValid(rate, b, AllPolls(n, front));
      RoundFollows(rate, v, n, last);
      var v1 := Poll(rate, v, last.at, n).0;
      FollowsConcat(rate, b, RoundsAsked(rate, b, n, front), v, 0,
                    Asked(rate, v, 0, Attempt(last.at, n), 0) + OthersAsked(rate, v1, last.others),
                    After(rate, v1, last.others), 0);
    }
  }

  /** A waiter that has been granted. */
  lemma WaitIsCharged(rate: real, b: Bucket, n: nat, rounds: seq<Round>, at: real, b': Bucket)
    requires Valid(rate, b) && AllRefused(rate, b, n, rounds)
    requires Ordered(b.last, AllPolls(n, rounds) + [Attempt(at, n)])
    requires Poll(rate, AfterRounds(rate, b, n, rounds), at, n) == (b', true)
    ensures Charged(rate, b, RoundsAsked(rate, b, n, rounds), at, n, b')
  {
    OrderedParts(b.last, AllPolls(n, rounds), [Attempt(at, n)]);
    RoundsFollow(rate, b, n, rounds);
    RoundsArePolls(rate, b, n, rounds);
    RunStaysValid(rate, b, AllPolls(n, rounds));
    assert [Attempt(at, n)][0].now == at;
  }

  /** A chunk: an Ask that is granted, and then a Wrote. */
  lemma ChargedThenWritten(rate: real, b: Bucket, before: seq<Move>, at: real, n: nat, b': Bucket, k: nat)
    requires Charged(rate, b, before, at, n, b') && k <= n
    ensures Follows(rate, b, before + [Ask(0, at, n), Wrote(0, k)], b', k)
  {
    var v := AfterMoves(rate, Shared(b), before).bucket;
    AskedFollows(rate, v, 0, Attempt(at, n), k);
    FollowsConcat(rate, b, before, v, 0, [Ask(0, at, n), Wrote(0, k)], b', k);
  }

  lemma {:induction false} MovesSpend(rate: real, s: Pipes, ms: seq<Move>)
    requires Valid(rate, s.bucket) && PipeRun(rate, s, ms)
    ensures var s' := AfterMoves(rate, s, ms);
            && Valid(rate, s'.bucket) && s.bucket.last <= s'.bucket.last
            && s'.bucket.tokens + (s'.written + Sum(s'.inFlight)) as real
               <= s.bucket.tokens + (s.written + Sum(s.inFlight)) as real + Quota(rate, s'.bucket.last - s.bucket.last)
    decreases |ms|
  {
    if ms != [] {
      var s1 := Moved(rate, s, ms[0]);
      match ms[0] {
        case Ask(w, now, n) =>
          SumOfUpdate(s.inFlight, w, n);
          PollIsBounded(rate, s.bucket, now, n);
        case Wrote(w, k) =>
          SumOfUpdate(s.inFlight, w, 0);
      }
      MovesSpend(rate, s1, ms[1..]);
      QuotasAdd(rate, s.bucket.last, s1.bucket.last, AfterMoves(rate, s, ms).bucket.last);
    } else {
      assert Quota(rate, 0.0) == 0.0;
    }
  }

  lemma {:induction false} WrittenCounts(rate: real, s: Pipes, ms: seq<Move>)
    requires PipeRun(rate, s, ms)
    ensures s.written + WrittenBy(0, ms) <= AfterMoves(rate, s, ms).written
    decreases |ms|
  {
    if ms != [] {
      WrittenCounts(rate, Moved(rate, s, ms[0]), ms[1..]);
      assert ms == [ms[0]] + ms[1..] && [ms[0]][..0] == [];
      WrittenByConcat(0, [ms[0]], ms[1..]);
    }
  }

  /** Whatever direction 0 writes was in the bucket or has been earned since. */
  lemma FollowingSpends(rate: real, b: Bucket, ms: seq<Move>, b': Bucket, n: nat)
    requires Valid(rate, b) && Follows(rate, b, ms, b', n)
    ensures b'.tokens + n as real <= b.tokens + Quota(rate, b'.last - b.last) && b.last <= b'.last
  {
    MovesSpend(rate, Shared(b), ms);
    WrittenCounts(rate, Shared(b), ms);
    assert Sum([0, 0]) == 0 by {
      SumOfZeros([0, 0]);
    }
  }

  lemma FollowingIsPaced(rate: real, b: Bucket, ms: seq<Move>, b': Bucket, n: nat, now: real)
    requires Valid(rate, b) && Follows(rate, b, ms, b', n) && b'.last <= now
    ensures n as real <= b.tokens + Quota(rate, now - b.last)
  {
    FollowingSpends(rate, b, ms, b', n);
    MovesSpend(rate, Shared(b), ms);
    QuotaIsMonotone(rate, now - b'.last);
    QuotasAdd(rate, b.last, b'.last, now);
  }

  // ---- the copying loop of one pipe direction ----

  const CHUNK := 16384  // relay.reader never hands out more

  /** What other waiters ask for in the meantime: anything, for any finite number of sleeps. */
  method Interference() returns (others: seq<seq<nat>>) {
    others := *;
  }

  /** relay.writer: wait for the quota of the whole chunk, then write it. */
  method ChargeAndWrite(dst: Conn, l: Limiter?, clock: Clock, data: seq<Byte>)
    returns (n: nat, ok: bool, ghost before: seq<Move>, ghost at: real)
    requires l != null ==> Valid(l.rate, l.View()) && l.last <= clock.now && |data| as real <= l.rate
    modifies dst`sent, dst`room, l, clock
    ensures l != null ==> Valid(l.rate, l.View()) && l.last <= clock.now
    ensures n == Min(|data|, old(dst.room)) && ok == (n == |data|)
    ensures dst.sent == old(dst.sent) + data[..n] && dst.room == old(dst.room) - n
    ensures l != null && data != [] ==> Charged(l.rate, old(l.View()), before, at, |data|, l.View())
    ensures l != null && data == [] ==> l.View() == old(l.View())
  {
    var others := Interference();
    var _, rounds, asked := Wait(l, clock, |data|, others);
    at := asked;
    if l != null && data != [] {
      before := RoundsAsked(l.rate, old(l.View()), |data|, rounds);
      WaitIsCharged(l.rate, old(l.View()), |data|, rounds, at, l.View());
    } else {
      before := [];
    }
    n, ok := dst.Write(data);
  }

  /** One turn of io.Copy: read at most a chunk, charge it, write it. To the pipes that share the limiter
      this is an Ask for the chunk, granted, and a Wrote of what went through. */
  method CopyChunk(src: Conn, dst: Conn, l: Limiter?, clock: Clock, buf: array<Byte>)
    returns (n: nat, more: bool, ghost ms: seq<Move>)
    requires src != dst && buf.Length >= CHUNK
    requires l != null ==> Valid(l.rate, l.View()) && l.last <= clock.now && CHUNK as real <= l.rate
    modifies src`pending, dst`sent, dst`room, l, clock, buf
    ensures l != null ==> Valid(l.rate, l.View()) && l.last <= clock.now
    ensures n <= 16384 && n <= |old(src.Unread())|
    ensures dst.sent == old(dst.sent) + old(src.Unread())[..n] && dst.room == old(dst.room) - n
    ensures more ==> old(src.Unread())[n..] == src.Unread() && (n > 0 || |src.pending| < |old(src.pending)|)
    ensures !more ==> n == |old(src.Unread())| || dst.room == 0
    ensures l != null ==> Follows(l.rate, old(l.View()), ms, l.View(), n)
    ensures l != null && n > 0 ==>
              && |ms| >= 2 && ms[|ms| - 1] == Wrote(0, n) && ms[|ms| - 2].Ask? && ms[|ms| - 2].w == 0
              && Charged(l.rate, old(l.View()), ms[..|ms| - 2], ms[|ms| - 2].now, ms[|ms| - 2].n, l.View())
    ensures l != null ==> l.tokens + n as real <= old(l.tokens) + Quota(l.rate, l.last - old(l.last))
  {
    n, ms := 0, [];
    if l != null {
      NothingFollows(l.rate, l.View());
    }
    var k, eof := src.Read(buf, 0, CHUNK);
    more := !eof;
    if k > 0 {
      assert old(src.Unread())[..k] == buf[..k];
      ghost var before, at;
      n, more, before, at := ChargeAndWrite(dst, l, clock, buf[..k]);
      assert buf[..k][..n] == old(src.Unread())[..n];
      if l != null {
        ChargedThenWritten(l.rate, old(l.View()), before, at, k, l.View(), n);
        ms := before + [Ask(0, at, k), Wrote(0, n)];
        assert ms[..|ms| - 2] == before;
      }
    }
    if l != null {
      FollowingSpends(l.rate, old(l.View()), ms, l.View(), n);
    }
  }

  lemma MoreCopied(data: seq<Byte>, n: nat, k: nat)
    requires n + k <= |data|
    ensures data[..n] + data[n..][..k] == data[..n + k] && data[n..][k..] == data[n + k..]
  {
  }

  /** io.Copy's loop: chunk after chunk until the source ends or a write fails. */
  method CopyLoop(src: Conn, dst: Conn, l: Limiter?, clock: Clock, buf: array<Byte>)
    returns (n: nat, ghost ms: seq<Move>)
    requires src != dst && buf.Length >= CHUNK
    requires l != null ==> Valid(l.rate, l.View()) && l.last <= clock.now && CHUNK as real <= l.rate
    modifies src`pending, dst`sent, dst`room, l, clock, buf
    ensures n == Min(|old(src.Unread())|, old(dst.room))
    ensures dst.sent == old(dst.sent) + old(src.Unread())[..n]
    ensures l != null ==> l.last <= clock.now && Follows(l.rate, old(l.View()), ms, l.View(), n)
  {
    n, ms := 0, [];
    if l != null {
      NothingFollows(l.rate, l.View());
    }
    ghost var data := src.Unread();
    var more := true;
    while more
      invariant l != null ==> Valid(l.rate, l.View()) && l.last <= clock.now
      invariant n <= |data| && dst.sent == old(dst.sent) + data[..n] && dst.room == old(dst.room) - n
      invariant more ==> data[n..] == src.Unread()
      invariant !more ==> n == |data| || dst.room == 0
      invariant l != null ==> Follows(l.rate, old(l.View()), ms, l.View(), n)
      decreases more, |src.Unread()|, |src.pending|
    {
      ghost var was := if l != null then l.View() else Bucket(0.0, 0.0);
      var k;
      ghost var chunk;
      k, more, chunk := CopyChunk(src, dst, l, clock, buf);
      MoreCopied(data, n, k);
      if l != null {
        FollowsConcat(l.rate, old(l.View()), ms, was, n, chunk, l.View(), k);
      }
      n, ms := n + k, ms + chunk;
    }
  }

  /** io.Copy through relay.reader and relay.writer. The destination gets the source's bytes, each once and
      in order, and no more of them than the limiter held at the start or has earned since, among whatever
      others take. */
  method CopyDirection(src: Conn, dst: Conn, l: Limiter?, clock: Clock) returns (n: nat, ghost ms: seq<Move>)
    requires src != dst
    requires l != null ==> Valid(l.rate, l.View()) && l.last <= clock.now && CHUNK as real <= l.rate
    modifies src`pending, dst`sent, dst`room, l, clock
    ensures n == Min(|old(src.Unread())|, old(dst.room))
    ensures dst.sent == old(dst.sent) + old(src.Unread())[..n]
    ensures l != null ==> Follows(l.rate, old(l.View()), ms, l.View(), n)
    ensures l != null ==> n as real <= old(l.tokens) + Quota(l.rate, clock.now - old(l.last))
  {
    var buf := new Byte[2 * CHUNK](i => 0);
    n, ms := CopyLoop(src, dst, l, clock, buf);
    if l != null {
      FollowingIsPaced(l.rate, old(l.View()), ms, l.View(), n, clock.now);
    }
  }
}
