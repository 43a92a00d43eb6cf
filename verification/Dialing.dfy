/** Target lists and balanced dialling (relay/proxyproto.go ParseTargets and DialUDPBalanced,
    server/forward.go and client/client.go dialBalanced). */
module Dialing {

  // ---- target lists ----

  /** unicode.IsSpace. */
  predicate IsSpace(c: char) {
    || c == '\t' || c == '\n' || c == '\U{000B}' || c == '\U{000C}' || c == '\r' || c == ' '
    || c == '\U{0085}' || c == '\U{00A0}' || c == '\U{1680}' || '\U{2000}' <= c <= '\U{200A}'
    || c == '\U{2028}' || c == '\U{2029}' || c == '\U{202F}' || c == '\U{205F}' || c == '\U{3000}'
  }

  /** strings.Split(s, ","). */
  function Split(s: string): (fields: seq<string>)
    ensures fields != []
    ensures forall f :: f in fields ==> ',' !in f
  {
    if s == "" then [""]
    else
      var rest := Split(s[1..]);
      if s[0] == ',' then [""] + rest else [[s[0]] + rest[0]] + rest[1..]
  }

  function TrimLeft(s: string): (t: string)
    ensures t == "" || !IsSpace(t[0])
    ensures forall c :: c in t ==> c in s
  {
    if s == "" || !IsSpace(s[0]) then s else TrimLeft(s[1..])
  }

  function TrimRight(s: string): (t: string)
    ensures t == "" || !IsSpace(t[|t| - 1])
    ensures t <= s
    ensures forall c :: c in t ==> c in s
  {
    if s == "" || !IsSpace(s[|s| - 1]) then s else TrimRight(s[..|s| - 1])
  }

  function TrimSpace(s: string): string {
    TrimRight(TrimLeft(s))
  }

  function Targets(fields: seq<string>): seq<string> {
    if fields == [] then []
    else
      var t := TrimSpace(fields[|fields| - 1]);
      Targets(fields[..|fields| - 1]) + (if t == "" then [] else [t])
  }

  method ParseTargets(s: string) returns (out: seq<string>)
    ensures out == Targets(Split(s))
  {
    out := [];
    var fields := Split(s);
    for i := 0 to |fields|
      invariant out == Targets(fields[..i])
    {
      assert fields[..i + 1][..i] == fields[..i];
      var t := TrimSpace(fields[i]);
      if t != "" {
        out := out + [t];
      }
    }
    assert fields[..|fields|] == fields;
  }

  /** A target that a list can carry. */
  predicate Clean(t: string) {
    t != "" && ',' !in t && !IsSpace(t[0]) && !IsSpace(t[|t| - 1])
  }

  lemma {:induction false} TargetsAreClean(fields: seq<string>)
    requires forall f :: f in fields ==> ',' !in f
    ensures forall t :: t in Targets(fields) ==> Clean(t)
  {
    if fields != [] {
      var front := fields[..|fields| - 1];
      assert forall f :: f in front ==> f in fields;
      TargetsAreClean(front);
      var t := TrimSpace(fields[|fields| - 1]);
      assert TrimLeft(fields[|fields| - 1])[..|t|] == t;
    }
  }

  function Join(ts: seq<string>): string
    requires ts != []
  {
    if |ts| == 1 then ts[0] else ts[0] + "," + Join(ts[1..])
  }

  lemma {:induction false} SplitWord(t: string, rest: string)
    requires ',' !in t
    ensures Split(t) == [t]
    ensures Split(t + "," + rest) == [t] + Split(rest)
  {
    if t == "" {
      assert t + "," + rest == "," + rest;
    } else {
      SplitWord(t[1..], rest);
      assert (t + "," + rest)[1..] == t[1..] + "," + rest;
      assert [t[0]] + t[1..] == t;
    }
  }

  lemma {:induction false} SplitInvertsJoin(ts: seq<string>)
    requires ts != [] && forall t :: t in ts ==> ',' !in t
    ensures Split(Join(ts)) == ts
  {
    if |ts| == 1 {
      SplitWord(ts[0], "");
    } else {
      SplitInvertsJoin(ts[1..]);
      SplitWord(ts[0], Join(ts[1..]));
    }
  }

  lemma CleanIsTrimmed(t: string)
    requires Clean(t)
    ensures TrimSpace(t) == t
  {
    assert TrimLeft(t) == t;
  }

  lemma TargetsOfLast(fields: seq<string>)
    requires fields != [] && TrimSpace(fields[|fields| - 1]) != ""
    ensures Targets(fields) == Targets(fields[..|fields| - 1]) + [TrimSpace(fields[|fields| - 1])]
  {
  }

  lemma {:induction false} CleanFieldsAreTargets(ts: seq<string>)
    requires forall i :: 0 <= i < |ts| ==> Clean(ts[i])
    ensures Targets(ts) == ts
  {
    if ts != [] {
      var front, last := ts[..|ts| - 1], ts[|ts| - 1];
      CleanFieldsAreTargets(front);
      CleanIsTrimmed(last);
      TargetsOfLast(ts);
      assert ts == front + [last];
    }
  }

  /** Joining clean targets with commas and parsing the list gives the same targets back, and
      whatever is parsed is a list of clean targets. */
  lemma ParseInvertsJoin(ts: seq<string>, s: string)
    ensures ts != [] && (forall t :: t in ts ==> Clean(t)) ==> Targets(Split(Join(ts))) == ts
    ensures forall t :: t in Targets(Split(s)) ==> Clean(t)
  {
    TargetsAreClean(Split(s));
    if ts != [] && forall t :: t in ts ==> Clean(t) {
      SplitInvertsJoin(ts);
      CleanFieldsAreTargets(ts);
    }
  }

  // ---- round robin with failover ----

  const INT64 := 0x8000_0000_0000_0000

  /** int(x) for a uint64, int64 addition, and Go's remainder, which has the dividend's sign. */
  function Wrap64(x: int): int {
    (x + INT64) % (2 * INT64) - INT64
  }

  function GoRem(a: int, n: int): int
    requires n > 0
  {
    if a >= 0 then a % n else -((-a) % n)
  }

  /** The index that the i-th attempt of a call uses when it drew `counter`. */
  function TargetIndex(counter: nat, i: nat, n: nat): int
    requires n > 0
  {
    GoRem(Wrap64(Wrap64(counter) + i), n)
  }

  /** What a call that dials leaves in the counter. */
  function Advance(counter: nat): nat {
    (counter + 1) % (2 * INT64)
  }

  datatype Outcome = Connected(target: nat) | AllFailed | NoTargets | IndexPanic

  class RoundRobin {
    var counter: nat  // atomic.Uint64

    constructor ()
      ensures counter == 0
    {
      counter := 0;
    }

    /** `reachable` says for each position of the list whether dialling it works at its turn. */
    method DialBalanced(list: string, reachable: nat -> bool) returns (r: Outcome, ghost tried: seq<nat>)
      requires counter < 2 * INT64
      modifies this
      ensures var n := |Targets(Split(list))|;
              && (r.NoTargets? <==> n == 0)
              && counter == (if n == 0 then old(counter) else Advance(old(counter)))
              && (n > 0 ==> EndsAs(old(counter), n, reachable, r))
              && (n > 0 && tried != [] ==> tried[0] == TargetIndex(old(counter), 0, n))
              && (n > 0 && old(counter) + n <= INT64 ==> FirstReachable(old(counter), n, reachable, r, tried))
    {
      tried := [];
      var targets := ParseTargets(list);
      if |targets| == 0 {
        return NoTargets, tried;
      }
      var drawn := counter;
      counter := (counter + 1) % (2 * INT64);
      r, tried := TryInTurn(drawn, |targets|, reachable);
    }
  }

  /** The attempts before the i-th fell on targets of the list, and none of those was reachable. */
  predicate PassedOver(c: nat, n: nat, reachable: nat -> bool, i: nat)
    requires n > 0
  {
    forall j :: 0 <= j < i ==> TargetIndex(c, j, n) >= 0 && !reachable(TargetIndex(c, j, n))
  }

  /** How a call that drew c ends, for every value of the counter: at the first attempt whose index is
      negative or whose target is reachable, or with an error after n attempts. */
  ghost predicate EndsAs(c: nat, n: nat, reachable: nat -> bool, r: Outcome)
    requires n > 0
  {
    match r
    case Connected(t) =>
      exists i :: 0 <= i < n && PassedOver(c, n, reachable, i) && TargetIndex(c, i, n) == t && reachable(t)
    case IndexPanic => exists i :: 0 <= i < n && PassedOver(c, n, reachable, i) && TargetIndex(c, i, n) < 0
    case AllFailed => PassedOver(c, n, reachable, n)
    case NoTargets => false
  }

  /** The targets `tried` are the first ones in cyclic order; all but the last are unreachable, and
      the call fails only when every target of the list is. */
  ghost predicate FirstReachable(c: nat, n: nat, reachable: nat -> bool, r: Outcome, tried: seq<nat>)
    requires n > 0
  {
    && tried <= Cycle(c, n)
    && (r == AllFailed || (tried != [] && r == Connected(tried[|tried| - 1]) && reachable(tried[|tried| - 1])))
    && (r == AllFailed <==> forall t: nat :: t < n ==> !reachable(t))
    && (forall j :: 0 <= j < |tried| - 1 ==> !reachable(tried[j]))
  }

  method TryInTurn(drawn: nat, n: nat, reachable: nat -> bool) returns (r: Outcome, ghost tried: seq<nat>)
    requires 0 < n && drawn < 2 * INT64
    ensures EndsAs(drawn, n, reachable, r)
    ensures tried != [] ==> tried[0] == TargetIndex(drawn, 0, n)
    ensures drawn + n <= INT64 ==> FirstReachable(drawn, n, reachable, r, tried)
  {
    tried := [];
    for i := 0 to n
      invariant |tried| == i
      invariant drawn + n <= INT64 ==> tried == Cycle(drawn, n)[..i]
      invariant forall j :: 0 <= j < i ==> tried[j] == TargetIndex(drawn, j, n) && !reachable(tried[j])
    {
      var t := Index(drawn, i, n);
      assert PassedOver(drawn, n, reachable, i);
      if t < 0 {
        return IndexPanic, tried;
      }
      tried := tried + [t];
      if reachable(t) {
        return Connected(t), tried;
      }
    }
    if drawn + n <= INT64 {
      CycleVisitsEach(drawn, n);
      forall t: nat | t < n ensures !reachable(t) {
        assert tried[Position(drawn, n, t)] == t;
      }
    }
    return AllFailed, tried;
  }

  method Index(counter: nat, i: nat, n: nat) returns (t: int)
    requires i < n && counter < 2 * INT64
    ensures t == TargetIndex(counter, i, n)
    ensures counter + i < INT64 ==> t == Cycle(counter, n)[i]
  {
    IndexPanicsIff(counter, i, n);
    t := TargetIndex(counter, i, n);
  }

  /** The order in which a call goes round the list. */
  function Cycle(c: nat, n: nat): (order: seq<nat>)
    requires n > 0
    ensures |order| == n
  {
    seq(n, i requires 0 <= i < n => (c + i) % n)
  }

  /** The attempt at which a call that drew c comes to target t. */
  function Position(c: nat, n: nat, t: nat): (i: nat)
    requires t < n
    ensures i < n
  {
    var r := c % n;
    if t >= r then t - r else t - r + n
  }

  lemma NonzeroMultiple(d: int, n: int)
    requires n > 0
    ensures d >= 1 ==> d * n >= n
    ensures d <= -1 ==> d * n <= -n
  {
  }

  lemma DivUnique(a: int, n: int, q: int)
    requires n > 0 && q * n <= a < q * n + n
    ensures a / n == q && a % n == a - q * n
  {
    var d := a / n - q;
    NonzeroMultiple(d, n);
    assert d * n == (a / n) * n - q * n;
  }

  lemma RemainderOfSum(q: nat, r: nat, i: nat, n: nat)
    requires r < n && i < n
    ensures (q * n + r + i) % n == if r + i < n then r + i else r + i - n
  {
    if r + i < n {
      DivUnique(q * n + r + i, n, q);
    } else {
      assert (q + 1) * n == q * n + n;
      DivUnique(q * n + r + i, n, q + 1);
    }
  }

  lemma CycleAt(c: nat, n: nat, i: nat)
    requires i < n
    ensures Cycle(c, n)[i] == if c % n + i < n then c % n + i else c % n + i - n
  {
    var q, r := c / n, c % n;
    RemainderOfSum(q, r, i, n);
    assert c == q * n + r;
  }

  /** One round tries every target, and none twice. */
  lemma CycleVisitsEach(c: nat, n: nat)
    requires n > 0
    ensures forall i, j :: 0 <= i < j < n ==> Cycle(c, n)[i] != Cycle(c, n)[j]
    ensures forall t: nat :: t < n ==> Cycle(c, n)[Position(c, n, t)] == t
  {
    forall i, j | 0 <= i < j < n ensures Cycle(c, n)[i] != Cycle(c, n)[j] {
      CycleAt(c, n, i);
      CycleAt(c, n, j);
    }
    forall t: nat | t < n ensures Cycle(c, n)[Position(c, n, t)] == t {
      CycleAt(c, n, Position(c, n, t));
    }
  }

  lemma WrapTwice(a: nat, b: nat)
    ensures Wrap64(Wrap64(a) + b) == Wrap64(a + b)
  {
    var k := (a + INT64) / (2 * INT64);
    assert Wrap64(a) == a - k * (2 * INT64);
  }

  /** Beyond 2^63 draws the index turns negative: an attempt panics exactly when the wrapped sum is
      negative and no multiple of the list length. */
  lemma IndexPanicsIff(counter: nat, i: nat, n: nat)
    requires n > 0 && counter < 2 * INT64
    ensures TargetIndex(counter, i, n) < 0
       <==> Wrap64(counter + i) < 0 && (-Wrap64(counter + i)) % n != 0
    ensures counter + i < INT64 ==> TargetIndex(counter, i, n) == (counter + i) % n
  {
    WrapTwice(counter, i);
  }

  // ---- fairness ----

  /** The counter after m successive calls, each of which draws the value that the last one left. */
  function CounterAfter(c: nat, m: nat): nat {
    if m == 0 then c else Advance(CounterAfter(c, m - 1))
  }

  /** How many of m successive calls, the first of which draws c, start with target t. */
  function FirstChoices(c: nat, m: nat, n: nat, t: nat): nat
    requires t < n
  {
    if m == 0 then 0
    else FirstChoices(c, m - 1, n, t) + (if TargetIndex(CounterAfter(c, m - 1), 0, n) == t then 1 else 0)
  }

  lemma SmallSum(counter: nat)
    requires counter + 1 < 2 * INT64
    ensures Advance(counter) == counter + 1
  {
  }

  lemma {:induction false} CounterCounts(c: nat, m: nat)
    requires c + m < 2 * INT64
    ensures CounterAfter(c, m) == c + m
  {
    if m > 0 {
      CounterCounts(c, m - 1);
      SmallSum(c + m - 1);
    }
  }

  lemma FirstChoiceBelow(c: nat, m: nat, n: nat)
    requires n > 0 && c + m < INT64
    ensures TargetIndex(CounterAfter(c, m), 0, n) == (c + m) % n
  {
    CounterCounts(c, m);
    IndexPanicsIff(c + m, 0, n);
  }

  lemma QuotientStep(x: nat, n: nat, t: nat)
    requires t < n
    ensures (x + n - t) / n - (x + n - 1 - t) / n == if x % n == t then 1 else 0
  {
    var q, r := x / n, x % n;
    assert x == q * n + r;
    assert (q + 1) * n == q * n + n;
    if r < t {
      DivUnique(x + n - t, n, q);
      DivUnique(x + n - 1 - t, n, q);
    } else if r == t {
      DivUnique(x + n - t, n, q + 1);
      DivUnique(x + n - 1 - t, n, q);
    } else {
      DivUnique(x + n - t, n, q + 1);
      DivUnique(x + n - 1 - t, n, q + 1);
    }
  }

  lemma {:induction false} FirstChoicesClosedForm(c: nat, m: nat, n: nat, t: nat)
    requires t < n && c + m <= INT64
    ensures FirstChoices(c, m, n, t) == (c + m + n - 1 - t) / n - (c + n - 1 - t) / n
  {
    if m > 0 {
      FirstChoicesClosedForm(c, m - 1, n, t);
      FirstChoiceBelow(c, m - 1, n);
      QuotientStep(c + m - 1, n, t);
    }
  }

  lemma QuotientOfSum(a: nat, m: nat, n: nat)
    requires n > 0
    ensures (a + m) / n - a / n == m / n + (if a % n + m % n < n then 0 else 1)
  {
    var q, p := a / n, m / n;
    assert (q + p) * n == q * n + p * n && (q + p + 1) * n == (q + p) * n + n;
    DivUnique(a + m, n, q + p + if a % n + m % n < n then 0 else 1);
  }

  lemma Ceiling(m: nat, n: nat)
    requires n > 0
    ensures (m + n - 1) / n == m / n + (if m % n == 0 then 0 else 1)
  {
    var p := m / n;
    assert (p + 1) * n == p * n + n;
    DivUnique(m + n - 1, n, p + if m % n == 0 then 0 else 1);
  }

  /** Over any m successive calls that draw counters below 2^63, each of n targets is the first choice
      floor(m/n) or ceil(m/n) times. */
  lemma RoundRobinIsFair(c: nat, m: nat, n: nat, t: nat)
    requires t < n && c + m <= INT64
    ensures m / n <= FirstChoices(c, m, n, t) <= (m + n - 1) / n
  {
    FirstChoicesClosedForm(c, m, n, t);
    QuotientOfSum(c + n - 1 - t, m, n);
    Ceiling(m, n);
  }
}
