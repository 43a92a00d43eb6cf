/** What a push contains (server/reverse.go pushRulesTo), and what it makes of the client. */
module Broadcast {
  import opened Reverse
  import opened ReverseOverlap
  import Rules
  import ServerState

  predicate Meant(r: Rules.Rule, client: string) {
    r.AtClient() && r.client == client && r.enabled
  }

  function OnTheWire(r: Rules.Rule): ReverseRule {
    ReverseRule(r.id, r.name, r.proto, r.listen, r.target, r.allowFrom, r.maxMbps, r.maxConns, r.idleMin, r.proxyProto)
  }

  function PushFor(rules: seq<Rules.Rule>, client: string): seq<ReverseRule> {
    if rules == [] then []
    else
      var front, r := PushFor(rules[..|rules| - 1], client), rules[|rules| - 1];
      if Meant(r, client) then front + [OnTheWire(r)] else front
  }

  method PushRules(rules: seq<Rules.Rule>, client: string) returns (push: seq<ReverseRule>)
    ensures push == PushFor(rules, client)
  {
    push := [];
    for i := 0 to |rules|
      invariant push == PushFor(rules[..i], client)
    {
      assert rules[..i + 1][..i] == rules[..i];
      var r := rules[i];
      if r.AtClient() && r.client == client && r.enabled {
        push := push + [ReverseRule(r.id, r.name, r.proto, r.listen, r.target, r.allowFrom, r.maxMbps, r.maxConns,
                                    r.idleMin, r.proxyProto)];
      }
    }
    assert rules[..|rules|] == rules;
  }

  lemma {:induction false} PushedRules(rules: seq<Rules.Rule>, client: string, x: ReverseRule)
    ensures x in PushFor(rules, client) <==> exists r :: r in rules && Meant(r, client) && OnTheWire(r) == x
  {
    if rules != [] {
      var front, last := rules[..|rules| - 1], rules[|rules| - 1];
      assert rules == front + [last];
      PushedRules(front, client, x);
    }
  }

  /** The push follows the order of the rules: rules added at the end are pushed at the end, and a rule that
      is switched off, not the client's side's, or another client's is left out. */
  lemma {:induction false} PushFollowsOrder(p: seq<Rules.Rule>, q: seq<Rules.Rule>, r: Rules.Rule, client: string)
    ensures PushFor(p + q, client) == PushFor(p, client) + PushFor(q, client)
    ensures |PushFor([r], client)| == if r.enabled && r.side == "client" && r.client == client then 1 else 0
    ensures forall x :: x in PushFor([r], client) ==> x.id == r.id && x.listen == r.listen && x.proto == r.proto
  {
    assert [r][..0] == [];
    if q == [] {
      assert p + q == p;
    } else {
      assert (p + q)[..|p + q| - 1] == p + q[..|q| - 1];
      PushFollowsOrder(p, q[..|q| - 1], r, client);
    }
  }

  /** With unique ids, what the client is to run is exactly the server's enabled rules for it. */
  lemma DesiredOfPush(rules: seq<Rules.Rule>, client: string, r: Rules.Rule)
    requires ServerState.IdsGood(rules) && r in rules
    ensures var d := Desired(PushFor(rules, client));
            && (r.id in d <==> r.enabled && r.side == "client" && r.client == client)
            && (r.id in d ==>
                  var x := d[r.id];
                  && x.id == r.id && x.name == r.name && x.proto == r.proto && x.listen == r.listen
                  && x.target == r.target && x.allowFrom == r.allowFrom && x.maxMbps == r.maxMbps
                  && x.maxConns == r.maxConns && x.idleMin == r.idleMin && x.proxyProto == r.proxyProto)
  {
    DesiredIsMeant(rules, client, r);
  }

  lemma DesiredIsMeant(rules: seq<Rules.Rule>, client: string, r: Rules.Rule)
    requires ServerState.IdsGood(rules) && r in rules
    ensures var d := Desired(PushFor(rules, client));
            (r.id in d <==> Meant(r, client)) && (r.id in d ==> d[r.id] == OnTheWire(r))
  {
    var push := PushFor(rules, client);
    PushedRules(rules, client, OnTheWire(r));
    if r.id in Desired(push) {
      var x := DesiredComesFromRule(rules, client, r.id);
      OneRuleOfAnId(rules, x, r);
    }
  }

  lemma OneRuleOfAnId(rules: seq<Rules.Rule>, x: Rules.Rule, r: Rules.Rule)
    requires ServerState.IdsGood(rules) && x in rules && r in rules && x.id == r.id
    ensures x == r
  {
  }

  lemma DesiredComesFromRule(rules: seq<Rules.Rule>, client: string, id: Id) returns (r: Rules.Rule)
    requires id in Desired(PushFor(rules, client))
    ensures r in rules && r.id == id && Meant(r, client) && Desired(PushFor(rules, client))[id] == OnTheWire(r)
  {
    PushedRules(rules, client, Desired(PushFor(rules, client))[id]);
    r :| r in rules && Meant(r, client) && OnTheWire(r) == Desired(PushFor(rules, client))[id];
  }

  /** Rule `r` is at the client, in `s'`, as the server's rules say, except that it is missing exactly if
      some start for its id, of this push or of an earlier one, has failed in `steps` after `s1`; it has a
      listener; and nothing runs there that the server does not want. */
  ghost predicate Matches(rules: seq<Rules.Rule>, client: string, s1: State, steps: seq<Step>, r: Rules.Rule) {
    var s' := After(s1, steps);
    && (r.id in s'.rules <==>
          r.enabled && r.side == "client" && r.client == client && !SomeStartFails(s1, steps, r.id))
    && (r.id in s'.rules ==>
          var x := s'.rules[r.id];
          && x.proto == r.proto && x.listen == r.listen && x.target == r.target
          && (r.proto == "tcp" ==> r.id in s'.tcp) && (r.proto == "udp" ==> r.id in s'.udp))
    && (forall id :: id in s'.rules ==>
          exists x :: x in rules && x.id == id && x.enabled && x.side == "client" && x.client == client)
  }

  /** In whatever state a push finds the client: once all pending starts have settled, it runs exactly the
      server's enabled client-side rules for it, agreeing on id, protocol, port and target, except those
      for which some start has failed; and it runs nothing else. */
  lemma PushMatches(rules: seq<Rules.Rule>, client: string, s: State, steps: seq<Step>, r: Rules.Rule)
    requires ServerState.IdsGood(rules) && r in rules && Served(s)
    requires var s1 := Apply(s, PushFor(rules, client)); Round(s1, steps) && Settled(After(s1, steps))
    ensures Matches(rules, client, Apply(s, PushFor(rules, client)), steps, r)
  {
    var push := PushFor(rules, client);
    var s' := After(Apply(s, push), steps);
    DesiredOfPush(rules, client, r);
    PushConverges(s, push, steps, r.id);
    forall id | id in s'.rules
      ensures exists x :: x in rules && x.id == id && x.enabled && x.side == "client" && x.client == client
    {
      PushConverges(s, push, steps, id);
      var x := DesiredComesFromRule(rules, client, id);
    }
  }

  /** The server's port discipline is what keeps a client from clashing with its own listeners, provided
      that it reads the push when no earlier start is pending; see ReverseOverlap.PendingStartClashes. */
  lemma DisciplinedPushesNeverClash(rules: seq<Rules.Rule>, client: string, s: State, steps: seq<Step>)
    requires ServerState.PortsApart(rules) && Inv(s) && Settled(s)
    ensures Quiet(s, PushFor(rules, client), steps)
  {
    var push := PushFor(rules, client);
    var d := Desired(push);
    forall a, b | a != b && a in d && b in d ensures d[a].listen != d[b].listen {
      var ra := DesiredComesFromRule(rules, client, a);
      var rb := DesiredComesFromRule(rules, client, b);
      assert Rules.SamePlace(ra, rb);
    }
    SettledPushNeverClashesIff(s, push);
  }
}
