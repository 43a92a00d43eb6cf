/** Reverse rules at the client (client/reverse.go apply, start, stopLocked, stopAll): a second
    reconciler. It stops everything stale before it registers anything new; each new rule is started
    by its own goroutine, whose bind and whose registration are separate steps. */
module Reverse {
  type Id = string

  datatype ReverseRule = ReverseRule(id: Id, name: string, proto: string, listen: int, target: string,
                                     allowFrom: seq<string>, maxMbps: int, maxConns: int, idleMin: int, proxyProto: int)

  /** How far a starting goroutine has come. */
  datatype Phase = Binding | Bound(handle: nat) | Failed

  datatype Start = Start(rule: ReverseRule, phase: Phase)

  /** One goroutine: the push that launched it, and its rule. */
  datatype Ticket = Ticket(round: nat, id: Id)

  /** A socket ever opened, and how often the manager has closed it. */
  datatype Sock = Sock(proto: string, port: int, closed: nat)

  datatype State = State(rules: map<Id, ReverseRule>, tcp: map<Id, nat>, udp: map<Id, nat>, starts: map<Ticket, Start>,
                         round: nat, socks: seq<Sock>, clashes: nat)

  const EMPTY := State(map[], map[], map[], map[], 0, [], 0)

  datatype Step =
    | Push(push: seq<ReverseRule>)
    | Bind(ticket: Ticket, ok: bool)
    | Finish(ticket: Ticket)
    | StopAll

  predicate Startable(r: ReverseRule) {
    r.proto == "tcp" || r.proto == "udp"
  }

  predicate Agrees(r: ReverseRule, want: ReverseRule) {
    want.proto == r.proto && want.listen == r.listen && want.target == r.target
  }

  /** The pushed rules by id; of several with one id the last counts. */
  function Desired(push: seq<ReverseRule>): (d: map<Id, ReverseRule>)
    ensures forall id :: id in d ==> d[id] in push && d[id].id == id
    ensures forall r :: r in push ==> r.id in d
  {
    if push == [] then map[]
    else
      var r := push[|push| - 1];
      assert push == push[..|push| - 1] + [r];
      Desired(push[..|push| - 1])[r.id := r]
  }

  /** Of several pushed rules with one id the last counts. */
  lemma {:induction false} DesiredIsTheLast(push: seq<ReverseRule>, i: nat)
    requires i < |push| && forall j :: i < j < |push| ==> push[j].id != push[i].id
    ensures push[i].id in Desired(push) && Desired(push)[push[i].id] == push[i]
  {
    if i < |push| - 1 {
      assert push[..|push| - 1][i] == push[i];
      DesiredIsTheLast(push[..|push| - 1], i);
    }
  }

  function Stale(rules: map<Id, ReverseRule>, d: map<Id, ReverseRule>): set<Id> {
    set id | id in rules && !(id in d && Agrees(rules[id], d[id]))
  }

  function HandlesOf(m: map<Id, nat>, ids: set<Id>): set<nat> {
    set id | id in m && id in ids :: m[id]
  }

  function Close(socks: seq<Sock>, handles: set<nat>): (r: seq<Sock>)
    ensures |r| == |socks|
    ensures forall h :: 0 <= h < |r| ==>
        r[h] == if h in handles then socks[h].(closed := socks[h].closed + 1) else socks[h]
  {
    seq(|socks|, h
      requires 0 <= h < |socks| => if h in handles then socks[h].(closed := socks[h].closed + 1) else socks[h])
  }

  /** stopLocked for each of `ids`. */
  function StopIds(s: State, ids: set<Id>): State {
    s.(rules := s.rules - ids, tcp := s.tcp - ids, udp := s.udp - ids,
       socks := Close(s.socks, HandlesOf(s.tcp, ids) + HandlesOf(s.udp, ids)))
  }

  function Launched(toStart: map<Id, ReverseRule>, round: nat): (starts: map<Ticket, Start>)
    ensures forall t :: t in starts <==> t.round == round && t.id in toStart
    ensures forall t :: t in starts ==> starts[t] == Start(toStart[t.id], Binding)
  {
    map id | id in toStart :: Ticket(round, id) := Start(toStart[id], Binding)
  }

  function Missing(d: map<Id, ReverseRule>, rules: map<Id, ReverseRule>): map<Id, ReverseRule> {
    map id | id in d && id !in rules :: d[id]
  }

  function Register(s: State, d: map<Id, ReverseRule>): State {
    var toStart := Missing(d, s.rules);
    s.(rules := s.rules + toStart, starts := s.starts + Launched(toStart, s.round + 1), round := s.round + 1)
  }

  function Apply(s: State, push: seq<ReverseRule>): State {
    Register(StopIds(s, Stale(s.rules, Desired(push))), Desired(push))
  }

  predicate Occupied(socks: seq<Sock>, proto: string, port: int) {
    exists h :: 0 <= h < |socks| && socks[h].closed == 0 && socks[h].proto == proto && socks[h].port == port
  }

  predicate Enabled(s: State, step: Step) {
    match step
    case Push(_) => true
    case Bind(t, _) => t in s.starts && s.starts[t].phase.Binding? && Startable(s.starts[t].rule)
    case Finish(t) => t in s.starts && (s.starts[t].phase.Binding? ==> !Startable(s.starts[t].rule))
    case StopAll => true
  }

  function DoBind(s: State, t: Ticket, ok: bool): State
    requires t in s.starts
  {
    var r := s.starts[t].rule;
    s.(clashes := if Occupied(s.socks, r.proto, r.listen) then s.clashes + 1 else s.clashes,
       starts := s.starts[t := Start(r, if ok then Bound(|s.socks|) else Failed)],
       socks := if ok then s.socks + [Sock(r.proto, r.listen, 0)] else s.socks)
  }

  /** The goroutine's critical section after Listen has returned. */
  function DoFinish(s: State, t: Ticket): State
    requires t in s.starts
  {
    var Start(r, phase) := s.starts[t];
    var rest := s.(starts := s.starts - {t});
    match phase
    case Binding => rest
    case Bound(h) => if r.proto == "tcp" then rest.(tcp := s.tcp[r.id := h]) else rest.(udp := s.udp[r.id := h])
    case Failed => rest.(rules := s.rules - {r.id})
  }

  function Next(s: State, step: Step): State
    requires Enabled(s, step)
  {
    match step
    case Push(push) => Apply(s, push)
    case Bind(t, ok) => DoBind(s, t, ok)
    case Finish(t) => DoFinish(s, t)
    case StopAll => StopIds(s, s.rules.Keys)
  }

  // ---- invariants ----

  /** What refers to an open socket: a map entry, or a goroutine between Listen and registration. */
  datatype Owner = Tcp(id: Id) | Udp(id: Id) | Pending(ticket: Ticket)

  predicate Owns(s: State, o: Owner, h: nat) {
    match o
    case Tcp(id) => id in s.tcp && s.tcp[id] == h
    case Udp(id) => id in s.udp && s.udp[id] == h
    case Pending(t) => t in s.starts && s.starts[t].phase == Bound(h)
  }

  ghost predicate OwnersLive(s: State) {
    forall o, h: nat :: Owns(s, o, h) ==> h < |s.socks| && s.socks[h].closed == 0
  }

  ghost predicate OwnersApart(s: State) {
    forall o, p, h: nat :: Owns(s, o, h) && Owns(s, p, h) ==> o == p
  }

  /** Each open socket has one owner; no owner's socket was ever closed. */
  ghost predicate Apart(s: State) {
    OwnersLive(s) && OwnersApart(s)
  }

  /** Every socket has an owner or was closed exactly once. */
  ghost predicate Accounted(s: State) {
    forall h: nat :: h < |s.socks| ==> s.socks[h].closed == 1 || (s.socks[h].closed == 0 && exists o :: Owns(s, o, h))
  }

  predicate Fits(socks: seq<Sock>, h: nat, r: ReverseRule) {
    h < |socks| && socks[h].proto == r.proto && socks[h].port == r.listen
  }

  /** A known rule is in exactly one place: among the TCP listeners, among the UDP sockets, or still
      being started; a rule of another protocol ends up in none. An unknown id is nowhere. */
  predicate Slot(s: State, id: Id) {
    var t := Ticket(s.round, id);
    if id in s.rules then
      var r := s.rules[id];
      && r.id == id
      && (if t in s.starts then
            id !in s.tcp && id !in s.udp && s.starts[t].rule == r
            && (!s.starts[t].phase.Binding? ==> Startable(r))
            && (s.starts[t].phase.Bound? ==> Fits(s.socks, s.starts[t].phase.handle, r))
          else if r.proto == "tcp" then id in s.tcp && id !in s.udp && Fits(s.socks, s.tcp[id], r)
          else if r.proto == "udp" then id in s.udp && id !in s.tcp && Fits(s.socks, s.udp[id], r)
          else id !in s.tcp && id !in s.udp)
    else id !in s.tcp && id !in s.udp && t !in s.starts
  }

  ghost predicate Slots(s: State) {
    forall id :: Slot(s, id)
  }

  ghost predicate ThisRound(s: State) {
    forall t :: t in s.starts ==> t.round == s.round
  }

  ghost predicate Inv(s: State) {
    Apart(s) && Accounted(s) && Slots(s) && ThisRound(s)
  }

  predicate Settled(s: State) {
    s.starts == map[]
  }

  /** Pushes and the end of the session meet no goroutine still starting. */
  ghost predicate Orderly(s: State, step: Step) {
    match step
    case Push(_) => Settled(s)
    case StopAll => Settled(s)
    case _ => true
  }

  // ---- each socket is owned once or closed once ----

  lemma StoppedHandles(s: State, ids: set<Id>, o: Owner, h: nat)
    requires OwnersApart(s) && Owns(s, o, h)
    ensures h in HandlesOf(s.tcp, ids) + HandlesOf(s.udp, ids) <==> (o.Tcp? || o.Udp?) && o.id in ids
    ensures Owns(StopIds(s, ids), o, h) <==> h !in HandlesOf(s.tcp, ids) + HandlesOf(s.udp, ids)
  {
    if h in HandlesOf(s.tcp, ids) {
      var id :| id in s.tcp && id in ids && s.tcp[id] == h;
      assert Owns(s, Tcp(id), h);
    }
    if h in HandlesOf(s.udp, ids) {
      var id :| id in s.udp && id in ids && s.udp[id] == h;
      assert Owns(s, Udp(id), h);
    }
  }

  lemma StoppedHandleHasOwner(s: State, ids: set<Id>, h: nat) returns (o: Owner)
    requires h in HandlesOf(s.tcp, ids) + HandlesOf(s.udp, ids)
    ensures Owns(s, o, h)
  {
    if h in HandlesOf(s.tcp, ids) {
      var id :| id in s.tcp && id in ids && s.tcp[id] == h;
      o := Tcp(id);
    } else {
      var id :| id in s.udp && id in ids && s.udp[id] == h;
      o := Udp(id);
    }
  }

  lemma StopKeepsApart(s: State, ids: set<Id>)
    requires Apart(s)
    ensures Apart(StopIds(s, ids))
  {
    var s' := StopIds(s, ids);
    forall o, h: nat | Owns(s', o, h) ensures Owns(s, o, h) && h < |s'.socks| && s'.socks[h].closed == 0 {
      assert Owns(s, o, h);
      StoppedHandles(s, ids, o, h);
    }
  }

  lemma StopKeepsAccounted(s: State, ids: set<Id>)
    requires Apart(s) && Accounted(s)
    ensures Accounted(StopIds(s, ids))
  {
    var s' := StopIds(s, ids);
    forall h: nat | h < |s'.socks| && s'.socks[h].closed != 1
      ensures s'.socks[h].closed == 0 && exists o :: Owns(s', o, h)
    {
      if h in HandlesOf(s.tcp, ids) + HandlesOf(s.udp, ids) {
        var o := StoppedHandleHasOwner(s, ids, h);
      } else {
        var o :| Owns(s, o, h);
        StoppedHandles(s, ids, o, h);
      }
    }
  }

  /** No goroutine belongs to a push still to come. */
  ghost predicate Dated(s: State) {
    forall t :: t in s.starts ==> t.round <= s.round
  }

  lemma RegisterKeepsOwners(s: State, d: map<Id, ReverseRule>, o: Owner, h: nat)
    requires Dated(s)
    ensures Owns(Register(s, d), o, h) <==> Owns(s, o, h)
  {
  }

  lemma RegisterKeepsSlot(s: State, d: map<Id, ReverseRule>, id: Id)
    requires Slot(s, id) && Settled(s) && (id in d ==> d[id].id == id)
    ensures Slot(Register(s, d), id)
  {
  }

  lemma RegisterKeepsInv(s: State, d: map<Id, ReverseRule>)
    requires Inv(s) && Settled(s) && forall id :: id in d ==> d[id].id == id
    ensures Inv(Register(s, d))
  {
    var s' := Register(s, d);
    forall o, h: nat ensures Owns(s', o, h) <==> Owns(s, o, h) {
      RegisterKeepsOwners(s, d, o, h);
    }
    SameOwnersSameAccount(s, s');
    forall id ensures Slot(s', id) {
      RegisterKeepsSlot(s, d, id);
    }
  }

  lemma RegisterKeepsApart(s: State, d: map<Id, ReverseRule>)
    requires Apart(s) && Dated(s)
    ensures Apart(Register(s, d)) && Dated(Register(s, d))
  {
    forall o, h: nat ensures Owns(Register(s, d), o, h) <==> Owns(s, o, h) {
      RegisterKeepsOwners(s, d, o, h);
    }
  }

  lemma SameOwnersSameAccount(s: State, s': State)
    requires Apart(s) && Accounted(s) && s'.socks == s.socks && forall o, h: nat :: Owns(s', o, h) <==> Owns(s, o, h)
    ensures Apart(s') && Accounted(s')
  {
    forall h: nat | h < |s'.socks| && s'.socks[h].closed != 1
      ensures s'.socks[h].closed == 0 && exists o :: Owns(s', o, h)
    {
      var o :| Owns(s, o, h);
      assert Owns(s', o, h);
    }
  }

  lemma StopKeepsInv(s: State, ids: set<Id>)
    requires Inv(s) && Settled(s)
    ensures Inv(StopIds(s, ids)) && Settled(StopIds(s, ids))
  {
    StopKeepsApart(s, ids);
    StopKeepsAccounted(s, ids);
    forall id ensures Slot(StopIds(s, ids), id) {
      assert Slot(s, id);
    }
  }

  lemma BindKeepsOwners(s: State, t: Ticket, ok: bool, o: Owner, h: nat)
    requires Enabled(s, Bind(t, ok)) && OwnersLive(s)
    ensures Owns(DoBind(s, t, ok), o, h) <==> Owns(s, o, h) || (ok && o == Pending(t) && h == |s.socks|)
  {
  }

  lemma BindKeepsApart(s: State, t: Ticket, ok: bool)
    requires Apart(s) && Enabled(s, Bind(t, ok))
    ensures Apart(DoBind(s, t, ok))
  {
    forall o, h: nat
      ensures Owns(DoBind(s, t, ok), o, h) <==> Owns(s, o, h) || (ok && o == Pending(t) && h == |s.socks|)
    {
      BindKeepsOwners(s, t, ok, o, h);
    }
  }

  /** Even where a late registration replaces another entry, owners stay apart. */
  lemma RegistrationKeepsApart(s: State, t: Ticket)
    requires Apart(s) && t in s.starts
    ensures Apart(DoFinish(s, t))
  {
    forall o, h: nat | Owns(DoFinish(s, t), o, h)
      ensures (o != Pending(t) && Owns(s, o, h)) || (o == Entry(s.starts[t].rule) && Owns(s, Pending(t), h))
    {
      RegisteredOwner(s, t, o, h);
    }
  }

  lemma RegisteredOwner(s: State, t: Ticket, o: Owner, h: nat)
    requires t in s.starts && Owns(DoFinish(s, t), o, h)
    ensures (o != Pending(t) && Owns(s, o, h)) || (o == Entry(s.starts[t].rule) && Owns(s, Pending(t), h))
  {
  }

  lemma BindKeepsInv(s: State, t: Ticket, ok: bool)
    requires Inv(s) && Enabled(s, Bind(t, ok))
    ensures Inv(DoBind(s, t, ok))
  {
    var s' := DoBind(s, t, ok);
    forall o, h: nat ensures Owns(s', o, h) <==> Owns(s, o, h) || (ok && o == Pending(t) && h == |s.socks|) {
      BindKeepsOwners(s, t, ok, o, h);
    }
    assert OwnersLive(s') && OwnersApart(s');
    forall h: nat | h < |s'.socks| && s'.socks[h].closed != 1
      ensures s'.socks[h].closed == 0 && exists o :: Owns(s', o, h)
    {
      if h < |s.socks| {
        var o :| Owns(s, o, h);
        assert Owns(s', o, h);
      } else {
        assert Owns(s', Pending(t), h);
      }
    }
    forall id ensures Slot(s', id) {
      assert Slot(s, id);
    }
  }

  lemma FinishSteps(s: State, t: Ticket)
    requires Slots(s) && ThisRound(s) && Enabled(s, Finish(t))
    ensures t == Ticket(s.round, t.id) && t.id in s.rules && s.starts[t].rule == s.rules[t.id]
        && s.rules[t.id].id == t.id
    ensures t.id !in s.tcp && t.id !in s.udp && (s.starts[t].phase.Binding? ==> !Startable(s.starts[t].rule))
  {
    assert Slot(s, t.id);
  }

  function Entry(r: ReverseRule): Owner {
    if r.proto == "tcp" then Tcp(r.id) else Udp(r.id)
  }

  lemma FinishMovesOwner(s: State, t: Ticket, o: Owner, h: nat)
    requires Slots(s) && ThisRound(s) && Enabled(s, Finish(t))
    ensures Owns(DoFinish(s, t), o, h)
        <==> (o != Pending(t) && Owns(s, o, h)) || (o == Entry(s.starts[t].rule) && Owns(s, Pending(t), h))
  {
    FinishSteps(s, t);
  }

  lemma FinishKeepsApart(s: State, t: Ticket)
    requires Inv(s) && Enabled(s, Finish(t))
    ensures Apart(DoFinish(s, t)) && Accounted(DoFinish(s, t))
  {
    FinishSteps(s, t);
    var s', moved := DoFinish(s, t), Entry(s.starts[t].rule);
    forall o, h: nat
      ensures Owns(s', o, h) <==> (o != Pending(t) && Owns(s, o, h)) || (o == moved && Owns(s, Pending(t), h))
    {
      FinishMovesOwner(s, t, o, h);
    }
    assert forall h: nat :: !Owns(s, moved, h);
    forall h: nat | h < |s'.socks| && s'.socks[h].closed != 1
      ensures s'.socks[h].closed == 0 && exists o :: Owns(s', o, h)
    {
      var o :| Owns(s, o, h);
      assert Owns(s', if o == Pending(t) then moved else o, h);
    }
  }

  lemma FinishKeepsSlot(s: State, t: Ticket, id: Id)
    requires Slots(s) && ThisRound(s) && Enabled(s, Finish(t))
    ensures Slot(DoFinish(s, t), id)
  {
    FinishSteps(s, t);
    assert Slot(s, id);
  }

  lemma StepKeepsInv(s: State, step: Step)
    requires Inv(s) && Enabled(s, step) && Orderly(s, step)
    ensures Inv(Next(s, step))
  {
    match step
    case Push(push) =>
      StopKeepsInv(s, Stale(s.rules, Desired(push)));
      RegisterKeepsInv(StopIds(s, Stale(s.rules, Desired(push))), Desired(push));
    case Bind(t, ok) => BindKeepsInv(s, t, ok);
    case Finish(t) =>
      FinishKeepsApart(s, t);
      forall id ensures Slot(DoFinish(s, t), id) {
        FinishKeepsSlot(s, t, id);
      }
      FinishSteps(s, t);
    case StopAll => StopKeepsInv(s, s.rules.Keys);
  }

  // ---- runs ----

  ghost function After(s: State, steps: seq<Step>): State {
    if steps == [] then s
    else
      var before, step := After(s, steps[..|steps| - 1]), steps[|steps| - 1];
      if Enabled(before, step) then Next(before, step) else before
  }

  ghost predicate Run(s: State, steps: seq<Step>) {
    steps == [] ||
    (Run(s, steps[..|steps| - 1])
     && Enabled(After(s, steps[..|steps| - 1]), steps[|steps| - 1])
     && Orderly(After(s, steps[..|steps| - 1]), steps[|steps| - 1]))
  }

  lemma {:induction false} RunKeepsInv(s: State, steps: seq<Step>)
    requires Inv(s) && Run(s, steps)
    ensures Inv(After(s, steps))
  {
    if steps != [] {
      RunKeepsInv(s, steps[..|steps| - 1]);
      StepKeepsInv(After(s, steps[..|steps| - 1]), steps[|steps| - 1]);
    }
  }

  /** The maps partition the rules by protocol (one that is neither TCP nor UDP has no entry), each
      entry is a socket on its rule's port, and those are the open sockets; every other one has been
      closed exactly once. */
  ghost predicate Partitioned(s: State) {
    && s.tcp.Keys !! s.udp.Keys && s.tcp.Keys + s.udp.Keys == (set id | id in s.rules && Startable(s.rules[id]))
    && (forall id :: id in s.tcp ==>
        id in s.rules && s.rules[id].proto == "tcp" && Fits(s.socks, s.tcp[id], s.rules[id]))
    && (forall id :: id in s.udp ==>
        id in s.rules && s.rules[id].proto == "udp" && Fits(s.socks, s.udp[id], s.rules[id]))
    && (forall h: nat :: h < |s.socks| ==> s.socks[h].closed == if h in s.tcp.Values + s.udp.Values then 0 else 1)
  }

  lemma SettledMeansPartitioned(s: State)
    requires Inv(s) && Settled(s)
    ensures Partitioned(s)
  {
    forall id ensures id in s.rules && Startable(s.rules[id]) <==> id in s.tcp || id in s.udp {
      assert Slot(s, id);
    }
    forall id ensures !(id in s.tcp && id in s.udp) {
      assert Slot(s, id);
    }
    forall id | id in s.tcp ensures s.rules[id].proto == "tcp" && Fits(s.socks, s.tcp[id], s.rules[id]) {
      assert Slot(s, id);
    }
    forall id | id in s.udp ensures s.rules[id].proto == "udp" && Fits(s.socks, s.udp[id], s.rules[id]) {
      assert Slot(s, id);
    }
    forall h: nat | h < |s.socks| ensures s.socks[h].closed == if h in s.tcp.Values + s.udp.Values then 0 else 1 {
      SettledSocket(s, h);
    }
  }

  /** In every run in which pushes and the end of the session wait for pending starts, the listener
      maps partition the rule ids whenever all starts have settled, for every outcome and order of binds. */
  lemma ListenersPartitionTheRules(steps: seq<Step>)
    requires Run(EMPTY, steps) && Settled(After(EMPTY, steps))
    ensures Partitioned(After(EMPTY, steps))
  {
    RunKeepsInv(EMPTY, steps);
    SettledMeansPartitioned(After(EMPTY, steps));
  }

  lemma SettledSocket(s: State, h: nat)
    requires Apart(s) && Accounted(s) && Settled(s) && h < |s.socks|
    ensures s.socks[h].closed == if h in s.tcp.Values + s.udp.Values then 0 else 1
  {
    if h in s.tcp.Values {
      var id :| id in s.tcp && s.tcp[id] == h;
      assert Owns(s, Tcp(id), h);
    } else if h in s.udp.Values {
      var id :| id in s.udp && s.udp[id] == h;
      assert Owns(s, Udp(id), h);
    } else {
      assert forall o :: !Owns(s, o, h);
    }
  }

  // ---- what one push achieves ----

  /** A rule of the push that runs already, with the same protocol, port and target. */
  predicate Kept(s: State, d: map<Id, ReverseRule>, id: Id) {
    id in s.rules && id in d && Agrees(s.rules[id], d[id])
  }

  predicate SameEntry(m: map<Id, nat>, m': map<Id, nat>, id: Id) {
    (id in m <==> id in m') && (id in m ==> m[id] == m'[id])
  }

  predicate NewSocket(s: State, m: map<Id, nat>, id: Id) {
    id in m ==> m[id] >= |s.socks|
  }

  /** How far the rule `id` of a push onto `s` has come in `s'`; `failed` says that its bind failed. */
  predicate Progress(s: State, d: map<Id, ReverseRule>, s': State, id: Id, failed: bool) {
    var t := Ticket(s'.round, id);
    if Kept(s, d, id) then
      id in s'.rules && s'.rules[id] == s.rules[id] && SameEntry(s.tcp, s'.tcp, id) && SameEntry(s.udp, s'.udp, id)
      && t !in s'.starts
    else if id !in d then id !in s'.rules
    else if failed then
      if t in s'.starts then s'.starts[t].phase.Failed? && id in s'.rules && s'.rules[id] == d[id] else id !in s'.rules
    else
      && id in s'.rules && s'.rules[id] == d[id] && NewSocket(s, s'.tcp, id) && NewSocket(s, s'.udp, id)
      && (t in s'.starts ==> !s'.starts[t].phase.Failed?
                             && (s'.starts[t].phase.Bound? ==> s'.starts[t].phase.handle >= |s.socks|))
  }

  predicate Starting(step: Step) {
    step.Bind? || step.Finish?
  }

  /** Goroutines launched by a push run on, in any order, with no other push in between. */
  ghost predicate Round(s: State, steps: seq<Step>) {
    Run(s, steps) && forall step :: step in steps ==> Starting(step)
  }

  predicate BindFailed(steps: seq<Step>, t: Ticket) {
    Bind(t, false) in steps
  }

  lemma BindProgress(s: State, d: map<Id, ReverseRule>, s': State, t: Ticket, ok: bool, id: Id, failed: bool)
    requires Inv(s') && Enabled(s', Bind(t, ok)) && Progress(s, d, s', id, failed) && |s'.socks| >= |s.socks|
    ensures Progress(s, d, DoBind(s', t, ok), id, failed || (!ok && t == Ticket(s'.round, id)))
  {
    assert Slot(s', id);
    assert t.round == s'.round;
  }

  /** Progress of a rule depends on what is filed under its id only. */
  lemma ProgressOfSame(s: State, d: map<Id, ReverseRule>, a: State, b: State, id: Id, failed: bool)
    requires Progress(s, d, a, id, failed) && a.round == b.round
    requires (id in a.rules <==> id in b.rules) && (id in a.rules ==> a.rules[id] == b.rules[id])
    requires SameEntry(a.tcp, b.tcp, id) && SameEntry(a.udp, b.udp, id)
    requires var t := Ticket(a.round, id);
             (t in a.starts <==> t in b.starts) && (t in a.starts ==> a.starts[t] == b.starts[t])
    ensures Progress(s, d, b, id, failed)
  {
  }

  lemma FinishProgress(s: State, d: map<Id, ReverseRule>, s': State, t: Ticket, id: Id, failed: bool)
    requires Inv(s') && Enabled(s', Finish(t)) && Progress(s, d, s', id, failed)
    ensures Progress(s, d, DoFinish(s', t), id, failed)
  {
    FinishSteps(s', t);
    if t.id == id {
      assert Slot(s', id);
    } else {
      ProgressOfSame(s, d, s', DoFinish(s', t), id, failed);
    }
  }

  lemma StartProgress(s: State, d: map<Id, ReverseRule>, s': State, step: Step, id: Id, failed: bool)
    requires Inv(s') && Starting(step) && Enabled(s', step) && Progress(s, d, s', id, failed) && |s'.socks| >= |s.socks|
    ensures Progress(s, d, Next(s', step), id, failed || step == Bind(Ticket(s'.round, id), false))
    ensures Next(s', step).round == s'.round && |Next(s', step).socks| >= |s.socks|
  {
    match step
    case Bind(t, ok) => BindProgress(s, d, s', t, ok, id, failed);
    case Finish(t) => FinishProgress(s, d, s', t, id, failed);
  }

  lemma RoundFront(s: State, steps: seq<Step>)
    requires Round(s, steps) && steps != []
    ensures var front, step := steps[..|steps| - 1], steps[|steps| - 1];
            && Round(s, front) && Starting(step) && Enabled(After(s, front), step)
            && After(s, steps) == Next(After(s, front), step)
            && forall t :: BindFailed(steps, t) <==> BindFailed(front, t) || step == Bind(t, false)
  {
    assert steps == steps[..|steps| - 1] + [steps[|steps| - 1]];
  }

  /** Right after apply: nothing has failed yet. */
  lemma ApplyProgress(s: State, push: seq<ReverseRule>, id: Id)
    requires Inv(s) && Settled(s)
    ensures Progress(s, Desired(push), Apply(s, push), id, false)
  {
    assert Slot(s, id);
  }

  lemma {:induction false} RoundProgress(s: State, d: map<Id, ReverseRule>, s1: State, steps: seq<Step>, id: Id)
    requires Inv(s1) && Round(s1, steps) && |s1.socks| >= |s.socks| && Progress(s, d, s1, id, false)
    ensures var s' := After(s1, steps);
            && s'.round == s1.round && |s'.socks| >= |s.socks| && Inv(s')
            && Progress(s, d, s', id, BindFailed(steps, Ticket(s1.round, id)))
  {
    if steps != [] {
      var front, step := steps[..|steps| - 1], steps[|steps| - 1];
      RoundFront(s1, steps);
      RoundProgress(s, d, s1, front, id);
      StartKeepsInv(After(s1, front), step);
      StartProgress(s, d, After(s1, front), step, id, BindFailed(front, Ticket(s1.round, id)));
    }
  }

  lemma StartKeepsInv(s: State, step: Step)
    requires Inv(s) && Enabled(s, step) && Starting(step)
    ensures Inv(Next(s, step))
  {
    StepKeepsInv(s, step);
  }

  /** A push that meets no pending start, once its own have settled: the client's rules agree with the
      push on id, protocol, port and target, except that exactly the rules to be started whose bind failed
      are missing. What
      ran already and agreed keeps its rule and its socket; anything else there has a new socket. */
  lemma SettledPushConverges(s: State, push: seq<ReverseRule>, steps: seq<Step>, id: Id)
    requires Inv(s) && Settled(s) && Round(Apply(s, push), steps) && Settled(After(Apply(s, push), steps))
    ensures var s', d := After(Apply(s, push), steps), Desired(push);
            var kept := id in s.rules && id in d && s.rules[id].proto == d[id].proto
                        && s.rules[id].listen == d[id].listen && s.rules[id].target == d[id].target;
            && (id in s'.rules <==> id in d && (kept || !BindFailed(steps, Ticket(s.round + 1, id))))
            && (id in s'.rules ==>
                  && s'.rules[id].proto == d[id].proto && s'.rules[id].listen == d[id].listen
                  && s'.rules[id].target == d[id].target)
            && (kept ==> s'.rules[id] == s.rules[id] && SameEntry(s.tcp, s'.tcp, id) && SameEntry(s.udp, s'.udp, id))
            && (!kept ==> NewSocket(s, s'.tcp, id) && NewSocket(s, s'.udp, id))
            && Inv(s') && Partitioned(s')
  {
    StepKeepsInv(s, Push(push));
    ApplyProgress(s, push, id);
    var s1 := Apply(s, push);
    RoundProgress(s, Desired(push), s1, steps, id);
    SettledMeansPartitioned(After(s1, steps));
    assert Slot(After(s1, steps), id);
  }

  lemma RoundStep(s: State, front: seq<Step>, step: Step)
    requires Round(s, front) && Enabled(After(s, front), step) && Starting(step)
    ensures Round(s, front + [step]) && After(s, front + [step]) == Next(After(s, front), step)
  {
    assert (front + [step])[..|front|] == front;
  }

  lemma StopNone(s: State)
    ensures StopIds(s, {}) == s
  {
    assert HandlesOf(s.tcp, {}) == {} && HandlesOf(s.udp, {}) == {};
    assert s.rules - {} == s.rules && s.tcp - {} == s.tcp && s.udp - {} == s.udp;
    assert Close(s.socks, {}) == s.socks;
  }

  lemma PushOne(r: ReverseRule)
    ensures Apply(EMPTY, [r])
         == State(map[r.id := r], map[], map[], map[Ticket(1, r.id) := Start(r, Binding)], 1, [], 0)
  {
    assert [r][..0] == [];
    assert Desired([r]) == map[r.id := r];
    StopNone(EMPTY);
  }
}
