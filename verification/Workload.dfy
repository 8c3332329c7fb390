/** The objects the instance controller creates beside an instance. */
module Workload {
  import opened ApiTypes

  function PodLabels(name: string, team: string, tmpl: Template): Labels {
    map[LABEL_CHALLENGE := tmpl.name, LABEL_TEAM := team, LABEL_INSTANCE := name]
  }

  function BuildDeployment(name: string, team: string, tmpl: Template): Owned {
    Deployment(PodLabels(name, team, tmpl), PodLabels(name, team, tmpl))
  }

  /** The ports a template exposes, in order. */
  function Exposed(ports: seq<Port>): seq<Port> {
    if ports == [] then []
    else
      var last := ports[|ports| - 1];
      Exposed(ports[..|ports| - 1]) + if last.expose then [last] else []
  }

  lemma {:induction false} InExposed(ports: seq<Port>, p: Port)
    ensures p in Exposed(ports) <==> p in ports && p.expose
  {
    if ports != [] {
      var init, last := ports[..|ports| - 1], ports[|ports| - 1];
      InExposed(init, p);
      assert ports == init + [last];
    }
  }

  function ToServicePort(p: Port): ServicePort {
    ServicePort(p.name, p.containerPort, p.containerPort)
  }

  function ServicePorts(ports: seq<Port>): seq<ServicePort> {
    var exposed := Exposed(ports);
    seq(|exposed|, i requires 0 <= i < |exposed| => ToServicePort(exposed[i]))
  }

  function BuildService(name: string, tmpl: Template): Owned {
    Service(map[LABEL_INSTANCE := name], ServicePorts(tmpl.ports))
  }

  const PROTECTED_NAMESPACE := "kimo-system"

  function ToAllowRule(p: Port): AllowRule {
    AllowRule("", p.containerPort)
  }

  function AllowRules(ports: seq<Port>): seq<AllowRule> {
    var exposed := Exposed(ports);
    seq(|exposed|, i requires 0 <= i < |exposed| => ToAllowRule(exposed[i]))
  }

  function BuildFence(name: string, tmpl: Template): Fence {
    Fence(name, AllowRules(tmpl.ports), [DenyRule(PROTECTED_NAMESPACE)], false)
  }

  // ----- What is in them

  /** These are the places, in order, of the given ports in the list. */
  ghost predicate PlacesOf(kept: seq<nat>, chosen: seq<Port>, ports: seq<Port>) {
    && |kept| == |chosen|
    && (forall k :: 0 <= k < |kept| ==> kept[k] < |ports| && ports[kept[k]] == chosen[k])
    && (forall j, k :: 0 <= j < k < |kept| ==> kept[j] < kept[k])
  }

  lemma NoPlaces()
    ensures PlacesOf([], [], [])
  {}

  lemma PlacesInLonger(kept: seq<nat>, chosen: seq<Port>, ports: seq<Port>, last: Port)
    requires PlacesOf(kept, chosen, ports)
    ensures PlacesOf(kept, chosen, ports + [last])
    ensures PlacesOf(kept + [|ports|], chosen + [last], ports + [last])
  {}

  lemma {:induction false} PlacesOfExposed(ports: seq<Port>) returns (kept: seq<nat>)
    ensures PlacesOf(kept, Exposed(ports), ports)
    ensures forall i: nat :: i in kept <==> i < |ports| && ports[i].expose
  {
    hide PlacesOf;
    if ports == [] {
      kept := [];
      NoPlaces();
    } else {
      var n := |ports| - 1;
      kept := PlacesOfExposed(ports[..n]);
      PlacesInLonger(kept, Exposed(ports[..n]), ports[..n], ports[n]);
      assert ports == ports[..n] + [ports[n]];
      if ports[n].expose {
        kept := kept + [n];
      } else {
        assert Exposed(ports[..n]) + [] == Exposed(ports[..n]);
      }
    }
  }

  /** The exposed ports are those of the template that are marked so, each once, in their order. */
  lemma ExposedInOrder(ports: seq<Port>) returns (kept: seq<nat>)
    ensures |kept| == |Exposed(ports)|
    ensures forall k :: 0 <= k < |kept| ==> kept[k] < |ports| && ports[kept[k]] == Exposed(ports)[k]
    ensures forall j, k :: 0 <= j < k < |kept| ==> kept[j] < kept[k]
    ensures forall i: nat :: i in kept <==> i < |ports| && ports[i].expose
  {
    kept := PlacesOfExposed(ports);
  }

  /** The pods, and the selector that finds them, carry the names of the challenge, the team and the instance. */
  lemma DeploymentMeaning(name: string, team: string, tmpl: Template)
    ensures var deployment := BuildDeployment(name, team, tmpl);
            && deployment.Deployment? && deployment.selector == deployment.podLabels
            && deployment.podLabels.Keys == {"kimo.io/challenge", "kimo.io/team", "kimo.io/instance"}
            && deployment.podLabels["kimo.io/challenge"] == tmpl.name
            && deployment.podLabels["kimo.io/team"] == team
            && deployment.podLabels["kimo.io/instance"] == name
  {
    assert |"kimo.io/challenge"| == 17 && |"kimo.io/team"| == 12 && |"kimo.io/instance"| == 16;
  }

  /** The Service finds the instance's pods, and has one port under the same name and number for each exposed port. */
  lemma ServiceMeaning(name: string, tmpl: Template)
    ensures var service, exposed := BuildService(name, tmpl), Exposed(tmpl.ports);
            && service.Service? && service.selector == map["kimo.io/instance" := name]
            && |service.ports| == |exposed|
            && forall i :: 0 <= i < |exposed| ==>
                 && service.ports[i].name == exposed[i].name
                 && service.ports[i].port == exposed[i].containerPort == service.ports[i].targetPort
  {}

  /** The fence is the instance's, opens the exposed ports to everyone, and denies kimo-system and all egress. */
  lemma FenceMeaning(name: string, tmpl: Template)
    ensures var fence, exposed := BuildFence(name, tmpl), Exposed(tmpl.ports);
            && fence.instanceRef == name && !fence.allowEgress
            && |fence.denyRules| == 1 && fence.denyRules[0].to == "kimo-system"
            && |fence.allowRules| == |exposed|
            && forall i :: 0 <= i < |exposed| ==>
                 fence.allowRules[i].cidr == "" && fence.allowRules[i].port == exposed[i].containerPort
  {}
}
