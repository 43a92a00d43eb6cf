/** Forwarding rules: their shape, the check every rule passes before it is stored, and the port
    check (config/config.go Rule, server/state.go validateRule and portConflict). */
module Rules {
  import opened Streams
  import Acl
  import Dialing

  datatype Rule = Rule(id: string, name: string, side: string, proto: string, listen: int, client: string,
                       target: string, allowFrom: seq<string>, maxMbps: int, maxConns: int, idleMin: int,
                       proxyProto: int, enabled: bool)
  {
    /** Listening at the client: a reverse rule. Anything else listens at the server. */
    predicate AtClient() {
      side == "client"
    }
  }

  datatype ClientUser = ClientUser(name: string, token: string, note: string)

  /** What the standard library decides: parsing addresses, and splitting host:port. */
  datatype Env = Env(addresses: Acl.Library, splitsHostPort: string -> bool)

  predicate Registered(clients: seq<ClientUser>, name: string) {
    exists c :: c in clients && c.name == name
  }

  function TargetsOf(r: Rule): seq<string> {
    Dialing.Targets(Dialing.Split(r.target))
  }

  datatype RuleError =
    | EmptyName | BadSide | BadProto | BadPort | EmptyTarget | ReverseNeedsClient | BadAllowFrom | NegativeLimit
    | BadIdle | BadProxyProto | ProxyNeedsTcp | BadTarget | TooManyTargets | UnknownClient

  /** What each complaint means. */
  predicate Violates(env: Env, r: Rule, clients: seq<ClientUser>, e: RuleError) {
    match e
    case EmptyName => r.name == ""
    case BadSide => r.side !in {"", "server", "client"}
    case BadProto => r.proto !in {"tcp", "udp"}
    case BadPort => !(1 <= r.listen <= 65535)
    case EmptyTarget => r.target == ""
    case ReverseNeedsClient => r.AtClient() && r.client == ""
    case BadAllowFrom => exists a :: a in r.allowFrom && !Acl.Parses(env.addresses, a)
    case NegativeLimit => r.maxMbps < 0 || r.maxConns < 0
    case BadIdle => !(0 <= r.idleMin <= 24 * 60)
    case BadProxyProto => !(0 <= r.proxyProto <= 2)
    case ProxyNeedsTcp => r.proxyProto > 0 && r.proto != "tcp"
    case BadTarget => exists t :: t in TargetsOf(r) && !env.splitsHostPort(t)
    case TooManyTargets => |TargetsOf(r)| > 16
    case UnknownClient => r.client != "" && !Registered(clients, r.client)
  }

  ghost predicate WellFormed(env: Env, r: Rule, clients: seq<ClientUser>) {
    forall e :: !Violates(env, r, clients, e)
  }

  /** The fourteen conditions in one place. */
  lemma WellFormedIff(env: Env, r: Rule, clients: seq<ClientUser>)
    ensures WellFormed(env, r, clients) <==>
              && r.name != "" && r.side in {"", "server", "client"} && r.proto in {"tcp", "udp"}
              && 1 <= r.listen <= 65535 && r.target != "" && (r.side == "client" ==> r.client != "")
              && (forall a :: a in r.allowFrom ==>
                    env.addresses.parsePrefix(a).Some? || env.addresses.parseAddr(a).Some?)
              && r.maxMbps >= 0 && r.maxConns >= 0 && 0 <= r.idleMin <= 1440 && 0 <= r.proxyProto <= 2
              && (r.proxyProto > 0 ==> r.proto == "tcp")
              && (forall t :: t in TargetsOf(r) ==> env.splitsHostPort(t)) && |TargetsOf(r)| <= 16
              && (r.client != "" ==> exists c :: c in clients && c.name == r.client)
  {
    if WellFormed(env, r, clients) {
      NoneViolated(env, r, clients);
    } else {
      var e :| Violates(env, r, clients, e);
    }
  }

  lemma NoneViolated(env: Env, r: Rule, clients: seq<ClientUser>)
    requires WellFormed(env, r, clients)
    ensures !Violates(env, r, clients, EmptyName) && !Violates(env, r, clients, BadSide)
    ensures !Violates(env, r, clients, BadProto) && !Violates(env, r, clients, BadPort)
    ensures !Violates(env, r, clients, EmptyTarget) && !Violates(env, r, clients, ReverseNeedsClient)
    ensures !Violates(env, r, clients, BadAllowFrom) && !Violates(env, r, clients, NegativeLimit)
    ensures !Violates(env, r, clients, BadIdle) && !Violates(env, r, clients, BadProxyProto)
    ensures !Violates(env, r, clients, ProxyNeedsTcp) && !Violates(env, r, clients, BadTarget)
    ensures !Violates(env, r, clients, TooManyTargets) && !Violates(env, r, clients, UnknownClient)
  {
  }

  /** The order in which the checks are made. */
  function Rank(e: RuleError): nat {
    match e
    case EmptyName => 0
    case BadSide => 1
    case BadProto => 2
    case BadPort => 3
    case EmptyTarget => 4
    case ReverseNeedsClient => 5
    case BadAllowFrom => 6
    case NegativeLimit => 7
    case BadIdle => 8
    case BadProxyProto => 9
    case ProxyNeedsTcp => 10
    case BadTarget => 11
    case TooManyTargets => 12
    case UnknownClient => 13
  }

  /** `e` is the first complaint among the checks from .. to, or there is none. */
  ghost predicate FirstComplaint(env: Env, r: Rule, clients: seq<ClientUser>, from: nat, to: nat,
                                 e: Option<RuleError>) {
    && (e.Some? ==> from <= Rank(e.value) < to && Violates(env, r, clients, e.value))
    && forall f :: from <= Rank(f) < to && (e.Some? ==> Rank(f) < Rank(e.value)) ==> !Violates(env, r, clients, f)
  }

  method ValidateRule(env: Env, r: Rule, clients: seq<ClientUser>) returns (e: Option<RuleError>)
    ensures e.None? <==> WellFormed(env, r, clients)
    ensures FirstComplaint(env, r, clients, 0, 14, e)
  {
    e := ValidateNames(env, r, clients);
    if e.None? {
      e := ValidateLimits(env, r, clients);
    }
    if e.None? {
      e := ValidateReferences(env, r, clients);
    }
    if e.None? {
      forall f ensures !Violates(env, r, clients, f) {
        assert Rank(f) < 14;
      }
    }
  }

  method ValidateNames(env: Env, r: Rule, clients: seq<ClientUser>) returns (e: Option<RuleError>)
    ensures FirstComplaint(env, r, clients, 0, 6, e)
  {
    if r.name == "" { return Some(EmptyName); }
    if r.side != "" && r.side != "server" && r.side != "client" { return Some(BadSide); }
    if r.proto != "tcp" && r.proto != "udp" { return Some(BadProto); }
    if r.listen < 1 || r.listen > 65535 { return Some(BadPort); }
    if r.target == "" { return Some(EmptyTarget); }
    if r.AtClient() && r.client == "" { return Some(ReverseNeedsClient); }
    return None;
  }

  method ValidateLimits(env: Env, r: Rule, clients: seq<ClientUser>) returns (e: Option<RuleError>)
    ensures FirstComplaint(env, r, clients, 6, 11, e)
  {
    var acl := Acl.BuildAcl(env.addresses, r.allowFrom);
    Acl.InvalidIff(env.addresses, r.allowFrom);
    if acl.Invalid? { return Some(BadAllowFrom); }
    if r.maxMbps < 0 || r.maxConns < 0 { return Some(NegativeLimit); }
    if r.idleMin < 0 || r.idleMin > 24 * 60 { return Some(BadIdle); }
    if r.proxyProto < 0 || r.proxyProto > 2 { return Some(BadProxyProto); }
    if r.proxyProto > 0 && r.proto != "tcp" { return Some(ProxyNeedsTcp); }
    return None;
  }

  method ValidateReferences(env: Env, r: Rule, clients: seq<ClientUser>) returns (e: Option<RuleError>)
    ensures FirstComplaint(env, r, clients, 11, 14, e)
  {
    var targets := Dialing.ParseTargets(r.target);
    for i := 0 to |targets|
      invariant forall j :: 0 <= j < i ==> env.splitsHostPort(targets[j])
    {
      if !env.splitsHostPort(targets[i]) { return Some(BadTarget); }
    }
    if |targets| > 16 { return Some(TooManyTargets); }
    if r.client != "" {
      var found := FindClient(clients, r.client);
      if !found { return Some(UnknownClient); }
    }
    return None;
  }

  method FindClient(clients: seq<ClientUser>, name: string) returns (found: bool)
    ensures found <==> Registered(clients, name)
  {
    for i := 0 to |clients|
      invariant forall j :: 0 <= j < i ==> clients[j].name != name
    {
      if clients[i].name == name { return true; }
    }
    return false;
  }

  // ---- ports ----

  /** Two rules that cannot listen on one port: both at the server, or both at the same client. */
  predicate SamePlace(a: Rule, b: Rule) {
    (!a.AtClient() && !b.AtClient()) || (a.AtClient() && b.AtClient() && a.client == b.client)
  }

  predicate Conflicts(rules: seq<Rule>, i: nat, skipIdx: int, r: Rule, skip: string)
    requires i < |rules|
  {
    i != skipIdx && rules[i].listen == r.listen && rules[i].id != skip && SamePlace(r, rules[i])
  }

  predicate PortTaken(rules: seq<Rule>, skipIdx: int, r: Rule, skip: string) {
    exists i: nat :: i < |rules| && Conflicts(rules, i, skipIdx, r, skip)
  }

  method PortConflict(rules: seq<Rule>, skipIdx: int, r: Rule, skip: string) returns (at: Option<nat>)
    ensures match at
            case None => !PortTaken(rules, skipIdx, r, skip)
            case Some(i) => i < |rules| && Conflicts(rules, i, skipIdx, r, skip)
                            && forall j: nat :: j < i ==> !Conflicts(rules, j, skipIdx, r, skip)
  {
    for i := 0 to |rules|
      invariant forall j: nat :: j < i ==> !Conflicts(rules, j, skipIdx, r, skip)
    {
      var cur := rules[i];
      if i == skipIdx || cur.listen != r.listen || cur.id == skip {
        continue;
      }
      if !r.AtClient() && !cur.AtClient() { return Some(i); }
      if r.AtClient() && cur.AtClient() && cur.client == r.client { return Some(i); }
    }
    return None;
  }
}
