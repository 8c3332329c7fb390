/** NetworkFence to NetworkPolicy, and what the resulting policy lets through. */
module NetworkPolicies {
  import opened ApiTypes
  import opened Calls

  // ----- networking.k8s.io/v1, as far as the controller uses it

  datatype Transport = TCP | UDP | SCTP

  datatype PolicyPort = PolicyPort(protocol: Transport, port: Int32)

  datatype Peer = IPBlock(cidr: string)

  datatype IngressRule = IngressRule(ports: seq<PolicyPort>, from: seq<Peer>)

  datatype EgressRule = EgressRule(ports: seq<PolicyPort>, to: seq<Peer>)

  datatype PolicyType = Ingress | Egress

  datatype PolicySpec = PolicySpec(
    podSelector: Labels,
    ingress: seq<IngressRule>,
    egress: seq<EgressRule>,
    policyTypes: seq<PolicyType>)

  datatype Policy = Policy(name: string, spec: PolicySpec)

  // Whether an address lies in a CIDR block is uninterpreted.
  type Address = string

  type Blocks = (string, Address) -> bool

  /** An empty list of ports, or of peers, matches everything. */
  ghost predicate PortsMatch(ports: seq<PolicyPort>, protocol: Transport, port: int) {
    ports == [] || exists p :: p in ports && p.protocol == protocol && p.port == port
  }

  ghost predicate PeersMatch(peers: seq<Peer>, inBlock: Blocks, address: Address) {
    peers == [] || exists p :: p in peers && inBlock(p.cidr, address)
  }

  /** A policy that does not list a direction leaves it open; one that lists it admits what some rule matches. */
  ghost predicate AdmitsIngress(spec: PolicySpec, inBlock: Blocks, source: Address, protocol: Transport, port: int) {
    Ingress in spec.policyTypes ==>
      exists rule :: rule in spec.ingress && PortsMatch(rule.ports, protocol, port)
                     && PeersMatch(rule.from, inBlock, source)
  }

  ghost predicate AdmitsEgress(spec: PolicySpec, inBlock: Blocks, target: Address, protocol: Transport, port: int) {
    Egress in spec.policyTypes ==>
      exists rule :: rule in spec.egress && PortsMatch(rule.ports, protocol, port)
                     && PeersMatch(rule.to, inBlock, target)
  }

  // ----- buildNetworkPolicy

  function IngressPorts(rules: seq<AllowRule>): seq<PolicyPort> {
    if rules == [] then []
    else
      var last := rules[|rules| - 1];
      IngressPorts(rules[..|rules| - 1]) + if last.port > 0 then [PolicyPort(TCP, last.port)] else []
  }

  function IngressFrom(rules: seq<AllowRule>): seq<Peer> {
    if rules == [] then []
    else
      var last := rules[|rules| - 1];
      IngressFrom(rules[..|rules| - 1]) + if last.cidr != "" then [IPBlock(last.cidr)] else []
  }

  function Compile(fence: Fence): Policy {
    Policy("kimo-" + fence.instanceRef,
           PolicySpec(
             map[LABEL_INSTANCE := fence.instanceRef],
             [IngressRule(IngressPorts(fence.allowRules), IngressFrom(fence.allowRules))],
             if fence.allowEgress then [EgressRule([], [])] else [],
             if fence.allowEgress || fence.denyRules != [] then [Ingress, Egress] else [Ingress]))
  }

  /** The policies of two fences have the same name exactly if the fences are the same instance's. */
  lemma PolicyNames(one: Fence, two: Fence)
    ensures Compile(one).name == "kimo-" + one.instanceRef
    ensures Compile(one).name == Compile(two).name <==> one.instanceRef == two.instanceRef
  {
    assert one.instanceRef == ("kimo-" + one.instanceRef)[5..];
    assert two.instanceRef == ("kimo-" + two.instanceRef)[5..];
  }

  method BuildNetworkPolicy(fence: Fence) returns (policy: Policy)
    ensures policy == Compile(fence)
  {
    var rules := fence.allowRules;
    var ingressPorts: seq<PolicyPort> := [];
    for i := 0 to |rules|
      invariant ingressPorts == IngressPorts(rules[..i])
    {
      assert rules[..i + 1][..i] == rules[..i];
      if rules[i].port > 0 {
        ingressPorts := ingressPorts + [PolicyPort(TCP, rules[i].port)];
      }
    }
    var ingressFrom: seq<Peer> := [];
    for i := 0 to |rules|
      invariant ingressFrom == IngressFrom(rules[..i])
    {
      assert rules[..i + 1][..i] == rules[..i];
      if rules[i].cidr != "" {
        ingressFrom := ingressFrom + [IPBlock(rules[i].cidr)];
      }
    }
    assert rules[..|rules|] == rules;
    var ingress := [IngressRule(ingressPorts, ingressFrom)];
    var egressRules: seq<EgressRule> := [];
    if fence.allowEgress {
      egressRules := egressRules + [EgressRule([], [])];
    }
    var policyTypes := [Ingress];
    if |egressRules| > 0 || |fence.denyRules| > 0 {
      policyTypes := policyTypes + [Egress];
    }
    policy := Policy("kimo-" + fence.instanceRef,
                     PolicySpec(map[LABEL_INSTANCE := fence.instanceRef], ingress, egressRules, policyTypes));
  }

  // ----- What a compiled fence means

  ghost predicate ListsPort(rules: seq<AllowRule>, port: int) {
    port > 0 && exists r :: r in rules && r.port == port
  }

  ghost predicate ListsNoPort(rules: seq<AllowRule>) {
    forall r :: r in rules ==> r.port <= 0
  }

  ghost predicate ListsBlockOf(rules: seq<AllowRule>, inBlock: Blocks, source: Address) {
    exists r :: r in rules && r.cidr != "" && inBlock(r.cidr, source)
  }

  ghost predicate ListsNoBlock(rules: seq<AllowRule>) {
    forall r :: r in rules ==> r.cidr == ""
  }

  lemma {:induction false} PortsInList(rules: seq<AllowRule>, p: PolicyPort)
    ensures p in IngressPorts(rules) <==> p.protocol == TCP && ListsPort(rules, p.port)
    ensures IngressPorts(rules) == [] <==> ListsNoPort(rules)
  {
    if rules != [] {
      var init, last := rules[..|rules| - 1], rules[|rules| - 1];
      PortsInList(init, p);
      assert forall r :: r in rules <==> r in init || r == last;
    }
  }

  lemma {:induction false} PeersInList(rules: seq<AllowRule>, p: Peer)
    ensures p in IngressFrom(rules) <==> p.cidr != "" && exists r :: r in rules && r.cidr == p.cidr
    ensures IngressFrom(rules) == [] <==> ListsNoBlock(rules)
  {
    if rules != [] {
      var init, last := rules[..|rules| - 1], rules[|rules| - 1];
      PeersInList(init, p);
      assert forall r :: r in rules <==> r in init || r == last;
    }
  }

  lemma PortsMeaning(rules: seq<AllowRule>, protocol: Transport, port: int)
    ensures PortsMatch(IngressPorts(rules), protocol, port) <==>
              ListsNoPort(rules) || (protocol == TCP && ListsPort(rules, port))
  {
    PortsInList(rules, PolicyPort(TCP, 0));
    if protocol == TCP && ListsPort(rules, port) {
      var p := PolicyPort(TCP, port);
      PortsInList(rules, p);
      assert p in IngressPorts(rules);
    }
    if p :| p in IngressPorts(rules) && p.protocol == protocol && p.port == port {
      PortsInList(rules, p);
    }
  }

  lemma PeersMeaning(rules: seq<AllowRule>, inBlock: Blocks, source: Address)
    ensures PeersMatch(IngressFrom(rules), inBlock, source) <==>
              ListsNoBlock(rules) || ListsBlockOf(rules, inBlock, source)
  {
    PeersInList(rules, IPBlock(""));
    if r :| r in rules && r.cidr != "" && inBlock(r.cidr, source) {
      PeersInList(rules, IPBlock(r.cidr));
      assert IPBlock(r.cidr) in IngressFrom(rules);
    }
    if p :| p in IngressFrom(rules) && inBlock(p.cidr, source) {
      PeersInList(rules, p);
    }
  }

  /**
   What the compiled policy lets in: any port when no rule names a positive one, else TCP on the ports named; from
   anywhere when no rule names a block, else from the blocks named. Ports and blocks are not paired by rule.
   What it lets out: everything if egress is allowed or nothing is denied, else nothing.
   */
  lemma CompiledMeaning(fence: Fence, inBlock: Blocks, peer: Address, protocol: Transport, port: int)
    ensures AdmitsIngress(Compile(fence).spec, inBlock, peer, protocol, port) <==>
              && (ListsNoPort(fence.allowRules) || (protocol == TCP && ListsPort(fence.allowRules, port)))
              && (ListsNoBlock(fence.allowRules) || ListsBlockOf(fence.allowRules, inBlock, peer))
    ensures AdmitsEgress(Compile(fence).spec, inBlock, peer, protocol, port) <==>
              fence.allowEgress || fence.denyRules == []
  {
    PortsMeaning(fence.allowRules, protocol, port);
    PeersMeaning(fence.allowRules, inBlock, peer);
    var spec := Compile(fence).spec;
    var rule := IngressRule(IngressPorts(fence.allowRules), IngressFrom(fence.allowRules));
    assert spec.ingress == [rule] && rule in spec.ingress;
    assert Ingress in spec.policyTypes;
    if fence.allowEgress {
      assert EgressRule([], []) in spec.egress;
    }
  }

  // ----- Rule by rule

  /** What a single rule lets in: a missing block means any source, a missing port any transport and port. */
  predicate RuleAdmits(rule: AllowRule, inBlock: Blocks, source: Address, protocol: Transport, port: int) {
    && (rule.cidr == "" || inBlock(rule.cidr, source))
    && (rule.port <= 0 || (protocol == TCP && rule.port == port))
  }

  ghost predicate SomeRuleAdmits(rules: seq<AllowRule>, inBlock: Blocks, source: Address, protocol: Transport,
                                 port: int) {
    exists rule :: rule in rules && RuleAdmits(rule, inBlock, source, protocol, port)
  }

  /** The policy admits exactly what some rule of the fence admits. */
  ghost predicate ReadsRuleByRule(fence: Fence) {
    forall inBlock: Blocks, source: Address, protocol: Transport, port: int ::
      AdmitsIngress(Compile(fence).spec, inBlock, source, protocol, port) <==>
        SomeRuleAdmits(fence.allowRules, inBlock, source, protocol, port)
  }

  function PortOf(rule: AllowRule): Int32 {
    if rule.port > 0 then rule.port else 0
  }

  ghost predicate Combines(rules: seq<AllowRule>, cidr: string, port: Int32) {
    exists rule :: rule in rules && rule.cidr == cidr && PortOf(rule) == port
  }

  /** Ports are missing in all rules or in none, so are blocks, and every block goes with every port. */
  ghost predicate IsProduct(rules: seq<AllowRule>) {
    && rules != []
    && (ListsNoPort(rules) || forall rule <- rules :: rule.port > 0)
    && (ListsNoBlock(rules) || forall rule <- rules :: rule.cidr != "")
    && (forall r1, r2 :: r1 in rules && r2 in rules ==> Combines(rules, r1.cidr, PortOf(r2)))
  }

  lemma RuleImpliesPolicy(fence: Fence, inBlock: Blocks, source: Address, protocol: Transport, port: int)
    requires IsProduct(fence.allowRules)
    requires SomeRuleAdmits(fence.allowRules, inBlock, source, protocol, port)
    ensures AdmitsIngress(Compile(fence).spec, inBlock, source, protocol, port)
  {
    CompiledMeaning(fence, inBlock, source, protocol, port);
    var rule :| rule in fence.allowRules && RuleAdmits(rule, inBlock, source, protocol, port);
  }

  lemma PolicyImpliesRule(fence: Fence, inBlock: Blocks, source: Address, protocol: Transport, port: int)
    requires IsProduct(fence.allowRules)
    requires AdmitsIngress(Compile(fence).spec, inBlock, source, protocol, port)
    ensures SomeRuleAdmits(fence.allowRules, inBlock, source, protocol, port)
  {
    var rules := fence.allowRules;
    CompiledMeaning(fence, inBlock, source, protocol, port);
    var r1 :| r1 in rules && (ListsNoBlock(rules) || (r1.cidr != "" && inBlock(r1.cidr, source)));
    var r2 :| r2 in rules && (ListsNoPort(rules) || (protocol == TCP && r2.port == port));
    assert Combines(rules, r1.cidr, PortOf(r2));
    var rule :| rule in rules && rule.cidr == r1.cidr && PortOf(rule) == PortOf(r2);
    assert RuleAdmits(rule, inBlock, source, protocol, port);
  }

  /** A fence without rules lets everything in. */
  lemma NoRulesReadOtherwise(fence: Fence)
    requires fence.allowRules == []
    ensures !ReadsRuleByRule(fence)
  {
    var inBlock: Blocks := (cidr, address) => true;
    CompiledMeaning(fence, inBlock, "", TCP, 1);
    assert !SomeRuleAdmits(fence.allowRules, inBlock, "", TCP, 1);
  }

  /** A rule without a port lets UDP in, the policy does not if another rule has a port. */
  lemma SomePortMissing(fence: Fence, open: AllowRule, closed: AllowRule)
    requires open in fence.allowRules && closed in fence.allowRules && open.port <= 0 < closed.port
    ensures !ReadsRuleByRule(fence)
  {
    var inBlock: Blocks := (cidr, address) => true;
    CompiledMeaning(fence, inBlock, "", UDP, 1);
    assert RuleAdmits(open, inBlock, "", UDP, 1);
    assert SomeRuleAdmits(fence.allowRules, inBlock, "", UDP, 1);
  }

  /** A rule without a block lets its port in from everywhere, the policy does not if another rule has a block. */
  lemma SomeBlockMissing(fence: Fence, open: AllowRule, closed: AllowRule)
    requires open in fence.allowRules && closed in fence.allowRules && open.cidr == "" != closed.cidr
    ensures !ReadsRuleByRule(fence)
  {
    var inBlock: Blocks := (cidr, address) => false;
    CompiledMeaning(fence, inBlock, "", TCP, open.port);
    assert RuleAdmits(open, inBlock, "", TCP, open.port);
    assert SomeRuleAdmits(fence.allowRules, inBlock, "", TCP, open.port);
  }

  /** A block and a port of two rules that no rule puts together: the policy lets that port in from that block. */
  lemma SomePairMissing(fence: Fence, r1: AllowRule, r2: AllowRule)
    requires r1 in fence.allowRules && r2 in fence.allowRules && !Combines(fence.allowRules, r1.cidr, PortOf(r2))
    requires ListsNoPort(fence.allowRules) || forall rule <- fence.allowRules :: rule.port > 0
    requires ListsNoBlock(fence.allowRules) || forall rule <- fence.allowRules :: rule.cidr != ""
    ensures !ReadsRuleByRule(fence)
  {
    var inBlock: Blocks := (cidr, address) => cidr == r1.cidr;
    CompiledMeaning(fence, inBlock, "", TCP, r2.port);
    assert AdmitsIngress(Compile(fence).spec, inBlock, "", TCP, r2.port);
    if rule :| rule in fence.allowRules && RuleAdmits(rule, inBlock, "", TCP, r2.port) {
      assert Combines(fence.allowRules, r1.cidr, PortOf(r2));
    }
  }

  /**
   Exactly when a policy means what the fence's rules mean one by one, whatever the blocks contain: there is a rule,
   ports are missing in all rules or in none, so are blocks, and every block is listed with every port.
   */
  lemma ReadsRuleByRuleExactly(fence: Fence)
    ensures ReadsRuleByRule(fence) <==> IsProduct(fence.allowRules)
  {
    var rules := fence.allowRules;
    if IsProduct(rules) {
      forall inBlock: Blocks, source: Address, protocol: Transport, port: int
        ensures AdmitsIngress(Compile(fence).spec, inBlock, source, protocol, port) <==>
                  SomeRuleAdmits(rules, inBlock, source, protocol, port)
      {
        if SomeRuleAdmits(rules, inBlock, source, protocol, port) {
          RuleImpliesPolicy(fence, inBlock, source, protocol, port);
        }
        if AdmitsIngress(Compile(fence).spec, inBlock, source, protocol, port) {
          PolicyImpliesRule(fence, inBlock, source, protocol, port);
        }
      }
    } else {
      hide ReadsRuleByRule;
      hide Combines;
      if rules == [] {
        NoRulesReadOtherwise(fence);
      } else if open, closed :| open in rules && closed in rules && open.port <= 0 < closed.port {
        SomePortMissing(fence, open, closed);
      } else if open, closed :| open in rules && closed in rules && open.cidr == "" != closed.cidr {
        SomeBlockMissing(fence, open, closed);
      } else {
        var r1, r2 :| r1 in rules && r2 in rules && !Combines(rules, r1.cidr, PortOf(r2));
        SomePairMissing(fence, r1, r2);
      }
    }
  }

  /**
   The smallest fence that fails: with a rule for one block and port, and one for another block and port, an address
   that lies in the first block only gets at the second port.
   */
  lemma TwoRulesCross(fence: Fence, one: AllowRule, two: AllowRule, inBlock: Blocks, source: Address)
    requires fence.allowRules == [one, two] && one.cidr != "" && two.cidr != ""
    requires one.port > 0 && two.port > 0 && one.port != two.port
    requires inBlock(one.cidr, source) && !inBlock(two.cidr, source)
    ensures AdmitsIngress(Compile(fence).spec, inBlock, source, TCP, two.port)
    ensures !SomeRuleAdmits(fence.allowRules, inBlock, source, TCP, two.port)
  {
    CompiledMeaning(fence, inBlock, source, TCP, two.port);
    assert one in fence.allowRules && two in fence.allowRules;
  }

  /** Such a fence: port 80 for one block, port 443 for another. */
  lemma SuchAFence()
    ensures var fence := Fence("web", [AllowRule("10.0.0.0/8", 80), AllowRule("192.168.0.0/16", 443)], [], false);
            !ReadsRuleByRule(fence)
  {
    var one, two := AllowRule("10.0.0.0/8", 80), AllowRule("192.168.0.0/16", 443);
    var fence := Fence("web", [one, two], [], false);
    var inBlock: Blocks := (cidr, address) => cidr == one.cidr;
    assert one.cidr[1] != two.cidr[1];
    TwoRulesCross(fence, one, two, inBlock, "10.0.0.1");
  }

  // ----- The reconcile

  /** The policies fence an instance: one selects its pods and no others, and admits what the fence says. */
  ghost predicate Fences(policies: map<string, PolicySpec>, fence: Fence) {
    && "kimo-" + fence.instanceRef in policies
    && var spec := policies["kimo-" + fence.instanceRef];
       && (forall labels: Labels :: Selects(spec.podSelector, labels) <==>
             "kimo.io/instance" in labels && labels["kimo.io/instance"] == fence.instanceRef)
       && (forall inBlock: Blocks, peer: Address, protocol: Transport, port: int ::
             && (AdmitsIngress(spec, inBlock, peer, protocol, port) <==>
                   && (ListsNoPort(fence.allowRules) || (protocol == TCP && ListsPort(fence.allowRules, port)))
                   && (ListsNoBlock(fence.allowRules) || ListsBlockOf(fence.allowRules, inBlock, peer)))
             && (AdmitsEgress(spec, inBlock, peer, protocol, port) <==> fence.allowEgress || fence.denyRules == []))
  }

  lemma CompiledFences(policies: map<string, PolicySpec>, fence: Fence)
    requires Compile(fence).name in policies && policies[Compile(fence).name] == Compile(fence).spec
    ensures Fences(policies, fence)
  {
    PolicyNames(fence, fence);
    var spec := Compile(fence).spec;
    assert spec.podSelector.Keys == {"kimo.io/instance"};
    assert spec.podSelector["kimo.io/instance"] == fence.instanceRef;
    forall inBlock: Blocks, peer: Address, protocol: Transport, port: int
      ensures AdmitsIngress(spec, inBlock, peer, protocol, port) <==>
                && (ListsNoPort(fence.allowRules) || (protocol == TCP && ListsPort(fence.allowRules, port)))
                && (ListsNoBlock(fence.allowRules) || ListsBlockOf(fence.allowRules, inBlock, peer))
      ensures AdmitsEgress(spec, inBlock, peer, protocol, port) <==> fence.allowEgress || fence.denyRules == []
    {
      CompiledMeaning(fence, inBlock, peer, protocol, port);
    }
  }

  /** The stored policies, and the fence status that a reconcile updates. */
  class PolicyStore {
    var policies: map<string, PolicySpec>
    var applied: bool
    var message: string

    constructor ()
      ensures policies == map[] && !applied
    {
      policies := map[];
      applied, message := false, "";
    }

    /**
     Create the policy or overwrite whatever policy has its name; other policies stay. Only a reconcile that got the
     policy in place marks the fence as applied; a fence that is gone is left alone.
     */
    method Reconcile(got: Fetch<Fence>, get: View, write: Fault, status: Fault) returns (reply: Reply)
      modifies this
      ensures got == Absent ==> reply == Requeue(0)
      ensures got == Unreadable ==> reply == Error
      ensures !got.Got? ==> policies == old(policies) && applied == old(applied) && message == old(message)
      ensures got.Got? ==>
                var p := Compile(got.value);
                var missed := get == Stale && p.name in old(policies);
                && reply == (if get != Broken && !missed && write == NoFault && status == NoFault
                             then Requeue(0) else Error)
                && policies == (if get == Broken || missed || write == Refused then old(policies)
                                else old(policies)[p.name := p.spec])
                && (applied, message) == (if get != Broken && !missed && write == NoFault && status != Refused
                                          then (true, "")
                                          else (old(applied), old(message)))
    {
      match got {
        case Absent => return Requeue(0);
        case Unreadable => return Error;
        case Got(fence) =>
          var np := BuildNetworkPolicy(fence);
          if get == Broken {
            return Error;
          }
          if np.name !in policies || get == Stale {
            if np.name in policies || write == Refused {
              return Error;
            }
            policies := policies[np.name := np.spec];
          } else {
            if write == Refused {
              return Error;
            }
            policies := policies[np.name := np.spec];
          }
          if write == ReplyLost || status == Refused {
            return Error;
          }
          applied := true;
          message := "";
          return if status == NoFault then Requeue(0) else Error;
      }
    }
  }

  /** No later fence is the same instance's. */
  predicate LastOfItsInstance(fences: seq<Fence>, i: nat)
    requires i < |fences|
  {
    forall j :: i < j < |fences| ==> fences[j].instanceRef != fences[i].instanceRef
  }

  ghost predicate Holds(policies: map<string, PolicySpec>, fence: Fence) {
    Compile(fence).name in policies && policies[Compile(fence).name] == Compile(fence).spec
  }

  /** Every instance has its last fence's policy. */
  ghost predicate HoldsLasts(policies: map<string, PolicySpec>, fences: seq<Fence>) {
    forall i: nat :: i < |fences| && LastOfItsInstance(fences, i) ==> Holds(policies, fences[i])
  }

  /** Policies that have no fence's name are as they were. */
  ghost predicate KeepsOthers(before: map<string, PolicySpec>, after: map<string, PolicySpec>, fences: seq<Fence>) {
    forall name <- before :: (forall fence <- fences :: name != "kimo-" + fence.instanceRef) ==>
      name in after && after[name] == before[name]
  }

  lemma OneMoreFence(policies: map<string, PolicySpec>, fences: seq<Fence>, fence: Fence)
    requires HoldsLasts(policies, fences)
    ensures HoldsLasts(policies[Compile(fence).name := Compile(fence).spec], fences + [fence])
  {
    var more, after := fences + [fence], policies[Compile(fence).name := Compile(fence).spec];
    forall i: nat | i < |more| && LastOfItsInstance(more, i) ensures Holds(after, more[i]) {
      if i < |fences| {
        assert more[|fences|] == fence;
        assert more[i].instanceRef != fence.instanceRef;
        PolicyNames(more[i], fence);
        forall j | i < j < |fences| ensures fences[j].instanceRef != fences[i].instanceRef {
          assert more[j] == fences[j];
        }
        assert LastOfItsInstance(fences, i);
      }
    }
  }

  lemma OneMoreKeepsOthers(before: map<string, PolicySpec>, policies: map<string, PolicySpec>, fences: seq<Fence>,
                           fence: Fence)
    requires KeepsOthers(before, policies, fences)
    ensures KeepsOthers(before, policies[Compile(fence).name := Compile(fence).spec], fences + [fence])
  {
    PolicyNames(fence, fence);
    var more := fences + [fence];
    assert fence in more && forall other <- fences :: other in more;
  }

  /**
   Any number of undisturbed reconciles, of the fences of any instances in any order: every instance is fenced by its
   own last fence, and policies of other names stay as they are.
   */
  method ReconcileAll(store: PolicyStore, fences: seq<Fence>)
    modifies store
    ensures forall i: nat :: i < |fences| && LastOfItsInstance(fences, i) ==> Fences(store.policies, fences[i])
    ensures KeepsOthers(old(store.policies), store.policies, fences)
  {
    hide Compile;
    for n := 0 to |fences|
      invariant HoldsLasts(store.policies, fences[..n])
      invariant KeepsOthers(old(store.policies), store.policies, fences[..n])
    {
      OneMoreFence(store.policies, fences[..n], fences[n]);
      OneMoreKeepsOthers(old(store.policies), store.policies, fences[..n], fences[n]);
      var reply := store.Reconcile(Got(fences[n]), Fresh, NoFault, NoFault);
      assert fences[..n + 1] == fences[..n] + [fences[n]];
    }
    assert fences[..|fences|] == fences;
    forall i: nat | i < |fences| && LastOfItsInstance(fences, i) ensures Fences(store.policies, fences[i]) {
      CompiledFences(store.policies, fences[i]);
    }
  }
}
