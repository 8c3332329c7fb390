/** The instance controller: its methods, each performing steps of the protocol. */
module InstanceReconciler {
  import opened Common
  import opened ApiTypes
  import opened Calls
  import opened Instances
  import opened History
  import opened Notifications
  import opened Workload
  import P = Protocol
  import PodWatch
  import opened Reconciles
  import opened ApiServer

  method BuildServicePorts(ports: seq<Port>) returns (r: seq<ServicePort>)
    ensures r == ServicePorts(ports)
  {
    r := [];
    for i := 0 to |ports|
      invariant r == ServicePorts(ports[..i])
    {
      assert ports[..i + 1][..i] == ports[..i];
      if ports[i].expose {
        r := r + [ServicePort(ports[i].name, ports[i].containerPort, ports[i].containerPort)];
      }
    }
    assert ports[..|ports|] == ports;
  }

  method BuildAllowRules(ports: seq<Port>) returns (r: seq<AllowRule>)
    ensures r == AllowRules(ports)
  {
    r := [];
    for i := 0 to |ports|
      invariant r == AllowRules(ports[..i])
    {
      assert ports[..i + 1][..i] == ports[..i];
      if ports[i].expose {
        r := r + [AllowRule("", ports[i].containerPort)];
      }
    }
    assert ports[..|ports|] == ports;
  }

  // ----- Objects beside the instance

  /** What get, then create if absent, leaves behind: an object that exists is never touched. */
  function Ensured(world: map<Key, Owned>, key: Key, obj: Owned, view: View, fault: Fault): map<Key, Owned> {
    if key in world || view == Broken || fault == Refused then world else world[key := obj]
  }

  /** The common shape of ensureWorkload and ensureNetworkFence. */
  method Ensure(cluster: Cluster, key: Key, obj: Owned, view: View, fault: Fault) returns (ok: bool)
    modifies cluster`world
    ensures ok <==> if key in old(cluster.world) then view == Fresh else view != Broken && fault == NoFault
    ensures cluster.world == if key in old(cluster.world) || view == Broken || fault == Refused then old(cluster.world)
                             else old(cluster.world)[key := obj]
  {
    var answer := cluster.Get(key, view);
    match answer
    case Failure => ok := false;
    case Found => ok := true;
    case NotFound => ok := cluster.Create(key, obj, fault);
  }

  method EnsureDeployment(cluster: Cluster, inst: ChallengeInstance, tmpl: Template, env: Env, ghost i: nat)
    returns (ok: bool)
    requires cluster.Valid() && P.At(cluster.now, i)
    requires cluster.now.workers[i] == P.Templated(inst.Copy(), tmpl)
    modifies cluster`world, cluster`now, cluster`run
    ensures cluster.Valid() && old(cluster.run) <= cluster.run
    ensures P.At(cluster.now, i)
    ensures ok <==> CanEnsure(old(cluster.world), P.DeploymentKey(cluster.c), env.deploymentView, env.deploymentFault)
    ensures cluster.world == Ensured(old(cluster.world), P.DeploymentKey(cluster.c),
                                     BuildDeployment(cluster.c.name, inst.spec.team, tmpl),
                                     env.deploymentView, env.deploymentFault)
    ensures ok ==> cluster.now.workers[i] == P.Deployed(inst.Copy(), tmpl)
  {
    var key := Key(DeploymentKind, cluster.c.name);
    var missing := key !in cluster.world;
    ok := Ensure(cluster, key, BuildDeployment(cluster.c.name, inst.spec.team, tmpl),
                 env.deploymentView, env.deploymentFault);
    if missing && key in cluster.world {
      cluster.Take(P.CreateDeployment(i));
    } else if ok {
      cluster.Take(P.FindDeployment(i));
    }
  }

  /** The service part of ensureWorkload; without an exposed port nothing is asked for and nothing is created. */
  method EnsureService(cluster: Cluster, inst: ChallengeInstance, tmpl: Template, env: Env, ghost i: nat)
    returns (ok: bool)
    requires cluster.Valid() && P.At(cluster.now, i)
    requires cluster.now.workers[i] == P.Deployed(inst.Copy(), tmpl)
    modifies cluster`world, cluster`now, cluster`run, inst`status
    ensures cluster.Valid() && old(cluster.run) <= cluster.run
    ensures P.At(cluster.now, i)
    ensures if Exposed(tmpl.ports) == [] then ok && cluster.world == old(cluster.world)
            else
              && (ok <==> CanEnsure(old(cluster.world), P.ServiceKey(cluster.c), env.serviceView, env.serviceFault))
              && cluster.world == Ensured(old(cluster.world), P.ServiceKey(cluster.c),
                                              BuildService(cluster.c.name, tmpl),
                                          env.serviceView, env.serviceFault)
    ensures inst.status == if ok then WithPodName(cluster.c, old(inst.status)) else old(inst.status)
    ensures ok ==> cluster.now.workers[i] == P.Serviced(inst.Copy(), tmpl)
  {
    var ports := BuildServicePorts(tmpl.ports);
    if |ports| != 0 {
      var key := Key(ServiceKind, cluster.c.name);
      var missing := key !in cluster.world;
      ok := Ensure(cluster, key, Service(map[LABEL_INSTANCE := cluster.c.name], ports),
                   env.serviceView, env.serviceFault);
      if missing && key in cluster.world {
        cluster.Take(P.CreateService(i));
      } else if ok {
        cluster.Take(P.FindService(i));
      }
      if !ok {
        return;
      }
    } else {
      ok := true;
      cluster.Take(P.SkipService(i));
    }
    inst.status := inst.status.(podName := cluster.c.name);
  }

  method EnsureNetworkFence(cluster: Cluster, inst: ChallengeInstance, tmpl: Template, env: Env, ghost i: nat)
    returns (ok: bool)
    requires cluster.Valid() && P.At(cluster.now, i)
    requires cluster.now.workers[i] == P.Serviced(inst.Copy(), tmpl)
    modifies cluster`world, cluster`now, cluster`run
    ensures cluster.Valid() && old(cluster.run) <= cluster.run
    ensures P.At(cluster.now, i)
    ensures ok <==> CanEnsure(old(cluster.world), P.FenceKey(cluster.c), env.fenceView, env.fenceFault)
    ensures cluster.world == Ensured(old(cluster.world), P.FenceKey(cluster.c),
                                     NetworkFence(BuildFence(cluster.c.name, tmpl)),
                                     env.fenceView, env.fenceFault)
    ensures ok ==> cluster.now.workers[i] == P.Fenced(inst.Copy(), tmpl)
  {
    var rules := BuildAllowRules(tmpl.ports);
    var key := Key(NetworkFenceKind, cluster.c.name);
    var missing := key !in cluster.world;
    var fence := Fence(cluster.c.name, rules, [DenyRule(PROTECTED_NAMESPACE)], false);
    ok := Ensure(cluster, key, NetworkFence(fence), env.fenceView, env.fenceFault);
    if missing && key in cluster.world {
      cluster.Take(P.CreateFence(i));
    } else if ok {
      cluster.Take(P.FindFence(i));
    }
  }

  // ----- Dating and judging

  /** ensureExpiry: on an error the copy keeps the dates it had, that is none. */
  method DateOnce(c: Config, inst: ChallengeInstance, tmpl: Template, now: int) returns (error: Option<string>)
    modifies inst`status
    ensures match EnsureExpiry(c, inst.spec, old(inst.status), tmpl, now)
            case Ok(st) => error == None && inst.status == st
            case Err(e) => error == Some(e) && inst.status == old(inst.status)
  {
    if inst.status.expiresAt != None {
      return None;
    }
    var ttl := tmpl.ttl;
    if inst.spec.ttlOverride != "" {
      ttl := inst.spec.ttlOverride;
    }
    var duration := c.parse(ttl);
    if duration.None? {
      return Some("invalid TTL: " + ttl);
    }
    inst.status := inst.status.(startedAt := Some(now));
    inst.status := inst.status.(expiresAt := Some(now + duration.value));
    return None;
  }

  /** determinePhase: the counter of the copy follows what the first pod shows. */
  method JudgePods(inst: ChallengeInstance, tmpl: Template, pods: seq<Pod>) returns (phase: Phase, reason: string)
    modifies inst`status
    ensures var v := DeterminePhase(old(inst.status).unhealthyCount, EffectiveThreshold(tmpl), Observe(pods));
            && phase == v.phase && reason == v.reason
            && inst.status == old(inst.status).(unhealthyCount := v.unhealthyCount)
    ensures phase == Failed <==> pods != [] && pods[0].phase == PodFailed
    ensures phase == Running <==> pods != [] && pods[0].phase == PodRunning && FirstReadyIsTrue(pods[0])
    ensures phase == Unhealthy <==>
              && pods != [] && pods[0].phase == PodRunning && !FirstReadyIsTrue(pods[0])
              && Wrap32(old(inst.status).unhealthyCount + 1)
                 >= if tmpl.unhealthyThreshold == 0 then 3 else tmpl.unhealthyThreshold
    ensures phase in {Failed, Running, Unhealthy, Creating}
    ensures inst.status.unhealthyCount ==
            if pods == [] || pods[0].phase != PodRunning then old(inst.status).unhealthyCount
            else if FirstReadyIsTrue(pods[0]) then 0
            else Wrap32(old(inst.status).unhealthyCount + 1)
  {
    if |pods| > 0 {
      PodReadyMeaning(pods[0].conditions);
      hide FirstReadyIsTrue;
    }
    if |pods| == 0 {
      return Creating, "waiting for pod to be scheduled";
    }
    var pod := pods[0];
    match pod.phase {
      case PodFailed => return Failed, "pod failed: " + pod.reason;
      case PodRunning =>
        if PodReady(pod.conditions) {
          inst.status := inst.status.(unhealthyCount := 0);
          return Running, "";
        }
        var threshold := tmpl.unhealthyThreshold;
        if threshold == 0 {
          threshold := 3;
        }
        inst.status := inst.status.(unhealthyCount := Wrap32(inst.status.unhealthyCount + 1));
        if inst.status.unhealthyCount >= threshold {
          return Unhealthy, "pod failing readiness checks";
        }
        return Creating, "waiting for pod to become ready";
      case _ => return Creating, "waiting for pod to start";
    }
  }

  // ----- Writing

  /**
   The outcome was submitted as the status of one version of the object. It is stored unless the version is stale
   or the update refused, and it is announced exactly if the update is reported as accepted and changes the phase
   to one with an event.
   */
  ghost predicate Submitted(cluster: Cluster, version: nat, spec: Spec, before: Status, outcome: Status, fault: Fault,
                            store: seq<Instance>, notified: seq<Event>)
    reads cluster`store, cluster`notified
    requires store != []
  {
    var due := Due(cluster.c, spec, before, outcome);
    var accepted := version + 1 == |store| && fault == NoFault;
    && cluster.store == StoreAfterStatus(store, version, outcome, fault)
    && cluster.notified == notified + if accepted && cluster.c.backend && due.Some? then [due.value] else []
  }

  /** What transition announces, and when, in comparison with what is due. */
  lemma TransitionDue(c: Config, spec: Spec, before: Status, phase: Phase, reason: string)
    requires phase !in {Expiring, Expired}
    ensures var after, kind := MovedTo(before, phase, reason), EventForPhase(phase);
            && Due(c, spec, before, after)
               == (if before.phase != phase && kind.Some? then Some(MakeEvent(c, spec, after, kind.value)) else None)
            && (kind.Some? <==> phase !in {Unset, Pending, Terminating})
            && (kind.Some? ==>
                  var event := MakeEvent(c, spec, after, kind.value);
                  && event.instance == c.name && event.challenge == spec.templateRef
                  && event.team == spec.team && event.player == spec.player
                  && event.endpoint == before.endpoint && event.reason == reason
                  && KindFits(event.kind, phase))
  {}

  /** transition: persist the phase, then announce it if it changed. A failed update announces nothing. */
  method Transition(cluster: Cluster, inst: ChallengeInstance, phase: Phase, reason: string, env: Env,
                    ghost seen: Seen, ghost i: nat)
    returns (ok: bool)
    requires cluster.Valid() && P.At(cluster.now, i)
    requires cluster.now.workers[i] == P.Transition(cluster.c, inst.Copy(), phase, reason, seen)
    requires phase !in {Expiring, Expired}
    modifies cluster`store, cluster`notified, cluster`now, cluster`run, inst`status
    ensures cluster.Valid() && old(cluster.run) <= cluster.run
    ensures P.At(cluster.now, i)
    ensures ok <==> inst.version + 1 == |old(cluster.store)| && env.updateFault == NoFault
    ensures Submitted(cluster, inst.version, inst.spec, old(inst.status), MovedTo(old(inst.status), phase, reason),
                      env.updateFault, old(cluster.store), old(cluster.notified))
    ensures ok && cluster.c.backend && old(inst.status).phase != phase && phase !in {Unset, Pending, Terminating} ==>
              && |cluster.notified| == |old(cluster.notified)| + 1 && old(cluster.notified) <= cluster.notified
              && var event := cluster.notified[|old(cluster.notified)|];
                 && event.instance == cluster.c.name && event.challenge == inst.spec.templateRef
                 && event.team == inst.spec.team && event.player == inst.spec.player
                 && event.endpoint == old(inst.status).endpoint && event.reason == reason
                 && KindFits(event.kind, phase)
  {
    hide Cluster.Valid;
    hide StoreAfterStatus;
    TransitionDue(cluster.c, inst.spec, inst.status, phase, reason);
    hide Due;
    hide MakeEvent;
    hide EventForPhase;
    hide KindFits;
    var changed := inst.status.phase != phase;
    inst.status := inst.status.(phase := phase);
    inst.status := inst.status.(reason := reason);
    ok := Persist(cluster, inst, env.updateFault, i);
    if !ok {
      return;
    }
    if changed && cluster.c.backend {
      var kind := EventForPhase(phase);
      if kind.Some? {
        Announce(cluster, MakeEvent(cluster.c, inst.spec, inst.status, kind.value), i);
      }
    }
  }

  // ----- What a reconcile sees and does

  /** The objects that a ready template calls for. */
  function Called(c: Config, spec: Spec, tmpl: Template): map<Key, Owned> {
    var always := map[P.DeploymentKey(c) := BuildDeployment(c.name, spec.team, tmpl),
                      P.FenceKey(c) := NetworkFence(BuildFence(c.name, tmpl))];
    if Exposed(tmpl.ports) == [] then always else always[P.ServiceKey(c) := BuildService(c.name, tmpl)]
  }

  /** Objects are only added, each as the template calls for it. */
  ghost predicate Grown(before: map<Key, Owned>, after: map<Key, Owned>, called: map<Key, Owned>) {
    && (forall key <- before :: key in after && after[key] == before[key])
    && (forall key <- after :: key in before || (key in called && after[key] == called[key]))
  }

  lemma EnsuredGrows(world: map<Key, Owned>, key: Key, obj: Owned, view: View, fault: Fault, called: map<Key, Owned>)
    requires key in called && called[key] == obj
    ensures var after := Ensured(world, key, obj, view, fault);
            && Grown(world, after, called) && world.Keys <= after.Keys
            && (CanEnsure(world, key, view, fault) ==> key in after)
            && (forall other :: other != key ==> (other in after <==> other in world))
  {}

  lemma GrownOn(before: map<Key, Owned>, between: map<Key, Owned>, after: map<Key, Owned>, called: map<Key, Owned>)
    requires Grown(before, between, called) && Grown(between, after, called)
    ensures Grown(before, after, called)
  {}

  /** The three calls in a row succeed exactly if each would on its own, and add only what is called for. */
  lemma ProvisionGrows(c: Config, spec: Spec, tmpl: Template, env: Env, world: map<Key, Owned>)
    ensures var called := Called(c, spec, tmpl);
            var first := Ensured(world, P.DeploymentKey(c), BuildDeployment(c.name, spec.team, tmpl),
                                 env.deploymentView, env.deploymentFault);
            var second := if Exposed(tmpl.ports) == [] then first
                          else Ensured(first, P.ServiceKey(c), BuildService(c.name, tmpl),
                                       env.serviceView, env.serviceFault);
            var third := Ensured(second, P.FenceKey(c), NetworkFence(BuildFence(c.name, tmpl)),
                                 env.fenceView, env.fenceFault);
            && Grown(world, first, called) && Grown(world, second, called) && Grown(world, third, called)
            && (CanProvision(c, tmpl, env, world) <==>
                  && CanEnsure(world, P.DeploymentKey(c), env.deploymentView, env.deploymentFault)
                  && (Exposed(tmpl.ports) != [] ==>
                        CanEnsure(first, P.ServiceKey(c), env.serviceView, env.serviceFault))
                  && CanEnsure(second, P.FenceKey(c), env.fenceView, env.fenceFault))
            && (CanProvision(c, tmpl, env, world) ==> called.Keys <= third.Keys)
  {
    hide BuildDeployment;
    hide BuildService;
    hide BuildFence;
    hide Exposed;
    hide Ensured;
    hide Grown;
    var called := Called(c, spec, tmpl);
    var deployment, fence := BuildDeployment(c.name, spec.team, tmpl), NetworkFence(BuildFence(c.name, tmpl));
    var first := Ensured(world, P.DeploymentKey(c), deployment, env.deploymentView, env.deploymentFault);
    EnsuredGrows(world, P.DeploymentKey(c), deployment, env.deploymentView, env.deploymentFault, called);
    var second := first;
    if Exposed(tmpl.ports) != [] {
      var service := BuildService(c.name, tmpl);
      EnsuredGrows(first, P.ServiceKey(c), service, env.serviceView, env.serviceFault, called);
      second := Ensured(first, P.ServiceKey(c), service, env.serviceView, env.serviceFault);
      GrownOn(world, first, second, called);
    }
    EnsuredGrows(second, P.FenceKey(c), fence, env.fenceView, env.fenceFault, called);
    GrownOn(world, second, Ensured(second, P.FenceKey(c), fence, env.fenceView, env.fenceFault), called);
  }

  /** Everything between reading a ready template and looking at the clock. */
  method Provision(cluster: Cluster, inst: ChallengeInstance, tmpl: Template, env: Env, ghost i: nat)
    returns (ok: bool)
    requires cluster.Valid() && P.At(cluster.now, i)
    requires cluster.now.workers[i] == P.Templated(inst.Copy(), tmpl)
    modifies cluster`world, cluster`now, cluster`run, inst`status
    ensures cluster.Valid() && old(cluster.run) <= cluster.run
    ensures P.At(cluster.now, i)
    ensures ok <==> CanProvision(cluster.c, tmpl, env, old(cluster.world))
    ensures Grown(old(cluster.world), cluster.world, Called(cluster.c, inst.spec, tmpl))
    ensures ok ==> Called(cluster.c, inst.spec, tmpl).Keys <= cluster.world.Keys
    ensures ok ==> inst.status == WithPodName(cluster.c, old(inst.status))
    ensures ok ==> cluster.now.workers[i] == P.Fenced(inst.Copy(), tmpl)
  {
    hide Cluster.Valid;
    hide P.At;
    hide Ensured;
    hide BuildDeployment;
    hide BuildService;
    hide BuildFence;
    hide CanEnsure;
    hide CanProvision;
    hide Grown;
    hide Called;
    hide Exposed;
    ProvisionGrows(cluster.c, inst.spec, tmpl, env, cluster.world);
    ok := EnsureDeployment(cluster, inst, tmpl, env, i);
    if !ok {
      return;
    }
    ok := EnsureService(cluster, inst, tmpl, env, i);
    if !ok {
      return;
    }
    ok := EnsureNetworkFence(cluster, inst, tmpl, env, i);
  }

  method Date(cluster: Cluster, inst: ChallengeInstance, tmpl: Template, ghost i: nat) returns (error: Option<string>)
    requires cluster.Valid() && P.At(cluster.now, i)
    requires cluster.now.workers[i] == P.Fenced(inst.Copy(), tmpl)
    modifies cluster`now, cluster`run, inst`status
    ensures cluster.Valid() && old(cluster.run) <= cluster.run
    ensures P.At(cluster.now, i)
    ensures match EnsureExpiry(cluster.c, inst.spec, old(inst.status), tmpl, cluster.clock)
            case Ok(st) =>
              && error == None && inst.status == st
              && cluster.now.workers[i] == P.Dated(inst.Copy(), tmpl, cluster.clock)
            case Err(e) =>
              && error == Some(e) && inst.status == old(inst.status)
              && cluster.now.workers[i] == P.Transition(cluster.c, inst.Copy(), Failed, e, InvalidTtl(tmpl))
  {
    error := DateOnce(cluster.c, inst, tmpl, cluster.clock);
    cluster.Take(P.DateInstance(i));
  }

  method Judge(cluster: Cluster, inst: ChallengeInstance, tmpl: Template, pods: seq<Pod>, ghost i: nat)
    returns (phase: Phase, reason: string)
    requires cluster.Valid() && P.At(cluster.now, i)
    requires cluster.now.workers[i] == P.Dated(inst.Copy(), tmpl, cluster.clock)
    requires forall pod <- pods :: BelongsTo(pod, cluster.c.namespace, cluster.c.name)
    modifies cluster`now, cluster`run, inst`status
    ensures cluster.Valid() && old(cluster.run) <= cluster.run
    ensures P.At(cluster.now, i)
    ensures cluster.now.workers[i]
            == P.Transition(cluster.c, inst.Copy(), phase, reason, Pods(tmpl, cluster.clock, pods))
    ensures var v := DeterminePhase(old(inst.status).unhealthyCount, EffectiveThreshold(tmpl), Observe(pods));
            && phase == v.phase && reason == v.reason
            && inst.status == old(inst.status).(unhealthyCount := v.unhealthyCount)
  {
    phase, reason := JudgePods(inst, tmpl, pods);
    cluster.Take(P.ListPods(i, pods));
  }

  lemma JudgedOutcome(c: Config, spec: Spec, st: Status, dated: Status, tmpl: Template, now: int, pods: seq<Pod>)
    requires st == WithPodName(c, st) && EnsureExpiry(c, spec, st, tmpl, now) == Ok(dated)
    ensures var v := DeterminePhase(dated.unhealthyCount, EffectiveThreshold(tmpl), Observe(pods));
            var judged := dated.(unhealthyCount := v.unhealthyCount);
            && InstanceOutcome(c, spec, st, Pods(tmpl, now, pods)) == MovedTo(judged, v.phase, v.reason)
            && Due(c, spec, judged, MovedTo(judged, v.phase, v.reason))
               == Due(c, spec, st, MovedTo(judged, v.phase, v.reason))
            && v.phase !in {Expiring, Expired}
  {}

  /** Judge the pods and write; `st` is the status before it was dated. */
  method JudgeAndWrite(cluster: Cluster, inst: ChallengeInstance, tmpl: Template, pods: seq<Pod>, env: Env,
                       ghost st: Status, ghost i: nat)
    returns (ok: bool)
    requires cluster.Valid() && P.At(cluster.now, i)
    requires cluster.now.workers[i] == P.Dated(inst.Copy(), tmpl, cluster.clock)
    requires forall pod <- pods :: BelongsTo(pod, cluster.c.namespace, cluster.c.name)
    requires st == WithPodName(cluster.c, st)
    requires EnsureExpiry(cluster.c, inst.spec, st, tmpl, cluster.clock) == Ok(inst.status)
    modifies cluster`store, cluster`notified, cluster`now, cluster`run, inst`status
    ensures cluster.Valid() && old(cluster.run) <= cluster.run
    ensures P.At(cluster.now, i)
    ensures ok <==> inst.version + 1 == |old(cluster.store)| && env.updateFault == NoFault
    ensures Submitted(cluster, inst.version, inst.spec, st,
                      InstanceOutcome(cluster.c, inst.spec, st, Pods(tmpl, cluster.clock, pods)),
                      env.updateFault, old(cluster.store), old(cluster.notified))
  {
    hide Cluster.Valid;
    hide StoreAfterStatus;
    JudgedOutcome(cluster.c, inst.spec, st, inst.status, tmpl, cluster.clock, pods);
    hide Due;
    hide DeterminePhase;
    hide Observe;
    hide InstanceOutcome;
    hide EnsureExpiry;
    var phase, reason := Judge(cluster, inst, tmpl, pods, i);
    ok := Transition(cluster, inst, phase, reason, env, Pods(tmpl, cluster.clock, pods), i);
  }

  /** The verdict of a reconcile that sees the pods is one that `PodWatch` reckons with. */
  lemma VerdictIsPossible(c: Config, st: Status, tmpl: Template, env: Env)
    requires env.pods.Some?
    ensures PodWatch.CanConclude(multiset(env.pods.value), c.namespace, c.name, st.unhealthyCount,
                                 EffectiveThreshold(tmpl),
                                 DeterminePhase(st.unhealthyCount, EffectiveThreshold(tmpl), Observe(ListPods(c, env))))
  {
    PodWatch.ListingIsOne(env.pods.value, c.namespace, c.name);
  }

  /** The write of what was seen, if the reconcile gets there; else the object is left alone. */
  ghost predicate Settled(cluster: Cluster, writes: bool, version: nat, spec: Spec, before: Status, seen: Seen,
                          fault: Fault, store: seq<Instance>, notified: seq<Event>)
    reads cluster`store, cluster`notified
    requires store != []
  {
    if writes then
      Submitted(cluster, version, spec, before, InstanceOutcome(cluster.c, spec, before, seen), fault, store, notified)
    else cluster.store == store && cluster.notified == notified
  }

  /** The rest of the reconcile: date the instance, judge its pods, and write. */
  method Conclude(cluster: Cluster, inst: ChallengeInstance, tmpl: Template, env: Env, ghost i: nat)
    returns (ok: bool)
    requires cluster.Valid() && P.At(cluster.now, i)
    requires cluster.now.workers[i] == P.Fenced(inst.Copy(), tmpl)
    requires inst.status == WithPodName(cluster.c, inst.status)
    modifies cluster`store, cluster`notified, cluster`now, cluster`run, inst`status
    ensures cluster.Valid() && old(cluster.run) <= cluster.run
    ensures P.At(cluster.now, i)
    ensures ok <==>
              && CanConclude(cluster.c, inst.spec, old(inst.status), tmpl, env)
              && inst.version + 1 == |old(cluster.store)| && env.updateFault == NoFault
    ensures Settled(cluster, CanConclude(cluster.c, inst.spec, old(inst.status), tmpl, env), inst.version, inst.spec,
                    old(inst.status), SeenWorkload(cluster.c, inst.spec, old(inst.status), cluster.clock, tmpl, env),
                    env.updateFault, old(cluster.store), old(cluster.notified))
  {
    hide Cluster.Valid;
    hide Due;
    hide DeterminePhase;
    hide StoreAfterStatus;
    hide Observe;
    ghost var st := inst.status;
    var error := Date(cluster, inst, tmpl, i);
    if error.Some? {
      ok := Transition(cluster, inst, Failed, error.value, env, InvalidTtl(tmpl), i);
      return;
    }
    if env.pods.None? {
      return false;
    }
    ok := JudgeAndWrite(cluster, inst, tmpl, ListPods(cluster.c, env), env, st, i);
  }

  // ----- The reconcile

  method FailWithoutTemplate(cluster: Cluster, inst: ChallengeInstance, env: Env, ghost i: nat) returns (ok: bool)
    requires cluster.Valid() && P.At(cluster.now, i)
    requires cluster.now.workers[i] == P.Fetched(inst.Copy())
    modifies cluster`store, cluster`notified, cluster`now, cluster`run, inst`status
    ensures cluster.Valid() && old(cluster.run) <= cluster.run
    ensures P.At(cluster.now, i)
    ensures ok <==> inst.version + 1 == |old(cluster.store)| && env.updateFault == NoFault
    ensures Settled(cluster, true, inst.version, inst.spec, old(inst.status), TemplateMissing,
                    env.updateFault, old(cluster.store), old(cluster.notified))
  {
    cluster.Take(P.FindNoTemplate(i));
    ok := Transition(cluster, inst, Failed, "template not found: " + inst.spec.templateRef, env, TemplateMissing, i);
  }

  method AwaitTemplate(cluster: Cluster, inst: ChallengeInstance, env: Env, ghost i: nat) returns (ok: bool)
    requires cluster.Valid() && P.At(cluster.now, i)
    requires cluster.now.workers[i] == P.Fetched(inst.Copy())
    modifies cluster`store, cluster`notified, cluster`now, cluster`run, inst`status
    ensures cluster.Valid() && old(cluster.run) <= cluster.run
    ensures P.At(cluster.now, i)
    ensures ok <==> inst.version + 1 == |old(cluster.store)| && env.updateFault == NoFault
    ensures Settled(cluster, true, inst.version, inst.spec, old(inst.status), TemplateNotReady,
                    env.updateFault, old(cluster.store), old(cluster.notified))
  {
    cluster.Take(P.FindUnreadyTemplate(i));
    ok := Transition(cluster, inst, Pending, "waiting for template to be ready", env, TemplateNotReady, i);
  }

  lemma NamingTwice(c: Config, spec: Spec, st: Status, seen: Seen, outcome: Status)
    requires outcome == InstanceOutcome(c, spec, WithPodName(c, st), seen) && (seen.InvalidTtl? || seen.Pods?)
    requires seen.Pods? ==> st.expiresAt.Some? || c.parse(TimeToLive(spec, seen.tmpl)).Some?
    ensures outcome == InstanceOutcome(c, spec, st, seen)
    ensures Due(c, spec, WithPodName(c, st), outcome) == Due(c, spec, st, outcome)
  {}

  method ReconcileReady(cluster: Cluster, inst: ChallengeInstance, tmpl: Template, env: Env, ghost i: nat)
    returns (ok: bool)
    requires cluster.Valid() && P.At(cluster.now, i)
    requires cluster.now.workers[i] == P.Fetched(inst.Copy()) && tmpl.ready && tmpl.name == inst.spec.templateRef
    modifies cluster, inst`status
    ensures cluster.Valid() && old(cluster.run) <= cluster.run
    ensures P.At(cluster.now, i) && cluster.clock == old(cluster.clock)
    ensures var writes := CanProvision(cluster.c, tmpl, env, old(cluster.world))
                          && CanConclude(cluster.c, inst.spec, old(inst.status), tmpl, env);
            && (ok <==> writes && inst.version + 1 == |old(cluster.store)| && env.updateFault == NoFault)
            && Settled(cluster, writes, inst.version, inst.spec, old(inst.status),
                       SeenWorkload(cluster.c, inst.spec, old(inst.status), cluster.clock, tmpl, env),
                       env.updateFault, old(cluster.store), old(cluster.notified))
    ensures Grown(old(cluster.world), cluster.world, Called(cluster.c, inst.spec, tmpl))
    ensures ok ==> Called(cluster.c, inst.spec, tmpl).Keys <= cluster.world.Keys
  {
    hide InstanceOutcome;
    hide Due;
    hide Grown;
    hide P.Run;
    cluster.Take(P.FindTemplate(i, tmpl));
    ok := Provision(cluster, inst, tmpl, env, i);
    if ok {
      ok := Conclude(cluster, inst, tmpl, env, i);
      ghost var st := old(inst.status);
      ghost var seen := SeenWorkload(cluster.c, inst.spec, st, cluster.clock, tmpl, env);
      NamingTwice(cluster.c, inst.spec, st, seen,
                  InstanceOutcome(cluster.c, inst.spec, WithPodName(cluster.c, st), seen));
    }
  }

  /** The objects after a reconcile: those that a ready template calls for are added. */
  ghost predicate WorldSettled(c: Config, spec: Spec, env: Env, before: map<Key, Owned>,
                               after: map<Key, Owned>, ok: bool) {
    match GetTemplate(env, spec.templateRef)
    case Got(tmpl) =>
      if !tmpl.ready then after == before
      else Grown(before, after, Called(c, spec, tmpl)) && (ok ==> Called(c, spec, tmpl).Keys <= after.Keys)
    case _ => after == before
  }

  method ReconcileFetched(cluster: Cluster, inst: ChallengeInstance, env: Env, ghost i: nat) returns (reply: Reply)
    requires cluster.Valid() && P.At(cluster.now, i)
    requires cluster.now.workers[i] == P.Fetched(inst.Copy())
    modifies cluster, inst`status
    ensures cluster.Valid() && old(cluster.run) <= cluster.run
    ensures cluster.clock == old(cluster.clock)
    ensures var writes := GetsToWrite(cluster.c, inst.spec, old(inst.status), env, old(cluster.world));
            && (reply != Error <==> writes && inst.version + 1 == |old(cluster.store)| && env.updateFault == NoFault)
            && (!writes ==> cluster.store == old(cluster.store) && cluster.notified == old(cluster.notified))
            && (writes ==>
                  var seen := SeenBy(cluster.c, inst.spec, old(inst.status), cluster.clock, env);
                  && (reply != Error ==>
                        reply == Requeue(if seen == TemplateNotReady then TEMPLATE_REQUEUE else HEALTH_REQUEUE))
                  && Settled(cluster, true, inst.version, inst.spec, old(inst.status), seen,
                             env.updateFault, old(cluster.store), old(cluster.notified)))
    ensures WorldSettled(cluster.c, inst.spec, env, old(cluster.world), cluster.world, reply != Error)
  {
    hide Submitted;
    hide InstanceOutcome;
    hide CanProvision;
    hide Grown;
    hide P.Run;
    var ok := false;
    match GetTemplate(env, inst.spec.templateRef) {
      case Unreadable =>
      case Absent => ok := FailWithoutTemplate(cluster, inst, env, i);
      case Got(tmpl) =>
        if !tmpl.ready {
          ok := AwaitTemplate(cluster, inst, env, i);
          if ok {
            return Requeue(TEMPLATE_REQUEUE);
          }
        } else {
          ok := ReconcileReady(cluster, inst, tmpl, env, i);
        }
    }
    if !ok {
      GiveUp(cluster, i);
      return Error;
    }
    return Requeue(HEALTH_REQUEUE);
  }

  /**
   One reconcile of the instance, from whichever version the cache returns and whatever else it meets.
   It performs steps of the protocol only, so it prolongs the run that the cluster was in. It succeeds exactly if no
   call fails and the version it read is still current, and in every case what it leaves behind follows from that
   very version.
   */
  method Reconcile(cluster: Cluster, get: Fetch<nat>, env: Env) returns (reply: Reply)
    requires cluster.Valid() && (get.Got? ==> get.value < |cluster.store|)
    modifies cluster
    ensures cluster.Valid() && old(cluster.run) <= cluster.run
    ensures cluster.clock == old(cluster.clock)
    ensures get == Absent ==> reply == Requeue(0)
    ensures get == Unreadable ==> reply == Error
    ensures get.Got? && Terminal(old(cluster.store)[get.value].status.phase) ==> reply == Requeue(0)
    ensures !get.Got? || Terminal(old(cluster.store)[get.value].status.phase) ==>
              cluster.store == old(cluster.store) && cluster.world == old(cluster.world)
              && cluster.notified == old(cluster.notified)
    ensures get.Got? && !Terminal(old(cluster.store)[get.value].status.phase) ==>
              var fetched := old(cluster.store)[get.value];
              var writes := GetsToWrite(cluster.c, fetched.spec, fetched.status, env, old(cluster.world));
              && (reply != Error <==> writes && get.value + 1 == |old(cluster.store)| && env.updateFault == NoFault)
              && (!writes ==> cluster.store == old(cluster.store) && cluster.notified == old(cluster.notified))
              && (writes ==>
                    var seen := SeenBy(cluster.c, fetched.spec, fetched.status, cluster.clock, env);
                    && (reply != Error ==>
                          reply == Requeue(if seen == TemplateNotReady then TEMPLATE_REQUEUE else HEALTH_REQUEUE))
                    && Settled(cluster, true, get.value, fetched.spec, fetched.status, seen,
                               env.updateFault, old(cluster.store), old(cluster.notified)))
              && WorldSettled(cluster.c, fetched.spec, env, old(cluster.world), cluster.world, reply != Error)
    ensures get.Got? && old(cluster.store)[get.value].status.phase !in {Expired, Failed} ==>
              Told(cluster.c, old(cluster.store), get.value, cluster.clock, env, old(cluster.world),
                   old(cluster.notified), cluster.store, reply, cluster.notified)
  {
    hide InstanceOutcome;
    hide GetsToWrite;
    hide SeenBy;
    hide Due;
    hide StoreAfterStatus;
    hide WorldSettled;
    hide Told;
    hide P.Run;
    match get {
      case Absent => return Requeue(0);
      case Unreadable => return Error;
      case Got(version) =>
        var inst := new ChallengeInstance(version, cluster.store[version]);
        if Terminal(inst.status.phase) {
          return Requeue(0);
        }
        ghost var i := |cluster.now.workers|;
        cluster.Take(P.StartInstance(version));
        reply := ReconcileFetched(cluster, inst, env, i);
        Telling(cluster.c, old(cluster.store), version, cluster.clock, env, old(cluster.world),
                old(cluster.notified), cluster.store, reply, cluster.notified);
    }
  }
}
