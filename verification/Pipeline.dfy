/**
 From template to fence to policy: what an instance's pods can be reached on, and that the labels along the way
 agree.
 */
module Pipeline {
  import opened ApiTypes
  import opened Instances
  import opened Workload
  import opened NetworkPolicies
  import P = Protocol
  import opened Safety

  ghost predicate Exposes(tmpl: Template, port: int) {
    exists p :: p in tmpl.ports && p.expose && p.containerPort == port
  }

  ghost predicate ExposesPositivePort(tmpl: Template) {
    exists p :: p in tmpl.ports && p.expose && p.containerPort > 0
  }

  lemma AllowRulesExpose(tmpl: Template, port: int)
    ensures ListsPort(AllowRules(tmpl.ports), port) <==> port > 0 && Exposes(tmpl, port)
    ensures ListsNoPort(AllowRules(tmpl.ports)) <==> !ExposesPositivePort(tmpl)
    ensures ListsNoBlock(AllowRules(tmpl.ports))
  {
    var exposed, rules := Exposed(tmpl.ports), AllowRules(tmpl.ports);
    forall p | p in tmpl.ports && p.expose ensures ToAllowRule(p) in rules {
      InExposed(tmpl.ports, p);
      var i :| 0 <= i < |exposed| && exposed[i] == p;
      assert rules[i] == ToAllowRule(p);
    }
    forall r | r in rules ensures exists p :: p in tmpl.ports && p.expose && r == ToAllowRule(p) {
      var i :| 0 <= i < |rules| && rules[i] == r;
      InExposed(tmpl.ports, exposed[i]);
    }
  }

  ghost predicate Serves(ports: seq<ServicePort>, port: int) {
    exists p :: p in ports && p.port == port && p.targetPort == port
  }

  lemma ServicePortsExpose(tmpl: Template, port: int)
    ensures Serves(ServicePorts(tmpl.ports), port) <==> Exposes(tmpl, port)
    ensures ServicePorts(tmpl.ports) == [] <==> forall p :: p in tmpl.ports ==> !p.expose
  {
    var exposed, ports := Exposed(tmpl.ports), ServicePorts(tmpl.ports);
    forall p | p in tmpl.ports && p.expose ensures ToServicePort(p) in ports {
      InExposed(tmpl.ports, p);
      var i :| 0 <= i < |exposed| && exposed[i] == p;
      assert ports[i] == ToServicePort(p);
    }
    forall r | r in ports ensures exists p :: p in tmpl.ports && p.expose && r == ToServicePort(p) {
      var i :| 0 <= i < |ports| && ports[i] == r;
      InExposed(tmpl.ports, exposed[i]);
    }
    assert ports != [] ==> ports[0] in ports;
  }

  /**
   For every template: nothing gets out; if some exposed port is positive, exactly TCP to the positive ports
   that the Service serves gets in, from anywhere; and if none is, everything gets in.
   */
  lemma TemplateMeaning(name: string, tmpl: Template, inBlock: Blocks, peer: Address, protocol: Transport, port: int)
    ensures var spec := Compile(BuildFence(name, tmpl)).spec;
            && !AdmitsEgress(spec, inBlock, peer, protocol, port)
            && (ExposesPositivePort(tmpl) ==>
                  (AdmitsIngress(spec, inBlock, peer, protocol, port) <==>
                     protocol == TCP && port > 0 && Serves(ServicePorts(tmpl.ports), port)))
            && (!ExposesPositivePort(tmpl) ==> AdmitsIngress(spec, inBlock, peer, protocol, port))
  {
    CompiledMeaning(BuildFence(name, tmpl), inBlock, peer, protocol, port);
    AllowRulesExpose(tmpl, port);
    ServicePortsExpose(tmpl, port);
  }

  lemma AllowRulesOfTemplate(tmpl: Template, rule: AllowRule)
    ensures rule in AllowRules(tmpl.ports) <==> rule.cidr == "" && Exposes(tmpl, rule.port)
  {
    var exposed, rules := Exposed(tmpl.ports), AllowRules(tmpl.ports);
    if rule in rules {
      var i :| 0 <= i < |rules| && rules[i] == rule;
      InExposed(tmpl.ports, exposed[i]);
    }
    if p :| p in tmpl.ports && p.expose && p.containerPort == rule.port && rule.cidr == "" {
      InExposed(tmpl.ports, p);
      var i :| 0 <= i < |exposed| && exposed[i] == p;
      assert rules[i] == rule;
    }
  }

  /**
   The fence of a template is read rule by rule exactly if the template exposes a port, and its exposed ports are all
   positive or none of them is.
   */
  lemma TemplateReadsRuleByRule(name: string, tmpl: Template)
    ensures ReadsRuleByRule(BuildFence(name, tmpl)) <==>
              && Exposed(tmpl.ports) != []
              && (ExposesPositivePort(tmpl) ==> forall p <- tmpl.ports :: p.expose ==> p.containerPort > 0)
  {
    var rules := AllowRules(tmpl.ports);
    hide ReadsRuleByRule;
    ReadsRuleByRuleExactly(BuildFence(name, tmpl));
    AllowRulesExpose(tmpl, 0);
    forall rule: AllowRule ensures rule in rules <==> rule.cidr == "" && Exposes(tmpl, rule.port) {
      AllowRulesOfTemplate(tmpl, rule);
    }
    forall r1, r2 | r1 in rules && r2 in rules ensures Combines(rules, r1.cidr, PortOf(r2)) || r2.port <= 0 {
      assert r2.cidr == r1.cidr;
    }
    if ListsNoPort(rules) {
      forall r1, r2 | r1 in rules && r2 in rules ensures Combines(rules, r1.cidr, PortOf(r2)) {
        assert PortOf(r2) == PortOf(r1);
      }
    }
    forall p | p in tmpl.ports && p.expose ensures AllowRule("", p.containerPort) in rules {
      assert Exposes(tmpl, p.containerPort);
    }
  }

  lemma LabelsDiffer()
    ensures LABEL_CHALLENGE != LABEL_TEAM && LABEL_TEAM != LABEL_INSTANCE && LABEL_CHALLENGE != LABEL_INSTANCE
  {
    assert |LABEL_CHALLENGE| == 17 && |LABEL_TEAM| == 12 && |LABEL_INSTANCE| == 16;
  }

  /**
   The pods of one instance are selected by the Deployment, the Service and the policy of that instance, and by
   no other's.
   */
  lemma LabelsAgree(name: string, team: string, tmpl: Template, other: string, otherTmpl: Template)
    ensures var pods := BuildDeployment(name, team, tmpl).podLabels;
            && Selects(BuildDeployment(name, team, tmpl).selector, pods)
            && (Selects(BuildService(other, otherTmpl).selector, pods) <==> name == other)
            && (Selects(Compile(BuildFence(other, otherTmpl)).spec.podSelector, pods) <==> name == other)
            && (Selects(map[LABEL_INSTANCE := other], pods) <==> name == other)
  {
    LabelsDiffer();
    assert LABEL_INSTANCE in map[LABEL_INSTANCE := other];
  }

  /**
   In every state of every run, an instance that has its expiry, and so one that is or was running, has a stored
   NetworkFence; the policy that it compiles to, once the fence's own reconcile stores it, selects the pods of the
   instance's stored Deployment and lets nothing out.
   */
  lemma FencedInRun(c: Config, run: seq<P.State>, k: nat)
    requires P.Run(c, run) && k < |run|
    ensures run[k].store != []
    ensures StatusAt(run, k).expiresAt.Some? ==>
              var world := run[k].world;
              && P.DeploymentKey(c) in world && world[P.DeploymentKey(c)].Deployment?
              && P.FenceKey(c) in world && world[P.FenceKey(c)].NetworkFence?
              && var spec := Compile(world[P.FenceKey(c)].fence).spec;
                 && Selects(spec.podSelector, world[P.DeploymentKey(c)].podLabels)
                 && forall inBlock: Blocks, peer: Address, protocol: Transport, port: int ::
                      !AdmitsEgress(spec, inBlock, peer, protocol, port)
  {
    ActiveIsProvisioned(c, run, k);
    RunInv(c, run, k);
    if StatusAt(run, k).expiresAt.Some? {
      var world := run[k].world;
      var team, tmpl :| world[P.DeploymentKey(c)] == BuildDeployment(c.name, team, tmpl);
      var fenced :| world[P.FenceKey(c)] == NetworkFence(BuildFence(c.name, fenced));
      LabelsAgree(c.name, team, tmpl, c.name, fenced);
      forall inBlock: Blocks, peer: Address, protocol: Transport, port: int
        ensures !AdmitsEgress(Compile(world[P.FenceKey(c)].fence).spec, inBlock, peer, protocol, port)
      {
        TemplateMeaning(c.name, fenced, inBlock, peer, protocol, port);
      }
    }
  }
}
