/** What one reconcile of the instance controller meets, and what follows from it. */
module Reconciles {
  import opened Common
  import opened Time
  import opened ApiTypes
  import opened Calls
  import opened Instances
  import opened Workload
  import opened History
  import opened Notifications
  import P = Protocol
  import PodWatch
  import opened ApiServer

  // ----- What it meets

  // The readable templates, each under its own name.
  type Templates = m: map<string, Template> | forall name <- m :: m[name].name == name witness map[]

  /** How the API server answers one reconcile's calls; `None` stands for a failure. */
  datatype Env = Env(
    templates: Option<Templates>,
    deploymentView: View, deploymentFault: Fault,
    serviceView: View, serviceFault: Fault,
    fenceView: View, fenceFault: Fault,
    pods: Option<seq<Pod>>,
    updateFault: Fault)

  function GetTemplate(env: Env, name: string): (answer: Fetch<Template>)
    ensures answer.Got? ==> answer.value.name == name
  {
    match env.templates
    case None => Unreadable
    case Some(templates) => if name in templates then Got(templates[name]) else Absent
  }

  /** The answer to a list of the instance's pods, given all pods. */
  function ListPods(c: Config, env: Env): seq<Pod> {
    match env.pods
    case None => []
    case Some(pods) => PodWatch.Listing(pods, c.namespace, c.name)
  }

  // ----- What it makes of it

  const TEMPLATE_REQUEUE: int := 10 * SECOND
  const HEALTH_REQUEUE: int := 15 * SECOND

  /** Get, then create if absent, succeeds: the object is seen, or it is missing and can be created. */
  predicate CanEnsure(world: map<Key, Owned>, key: Key, view: View, fault: Fault) {
    if key in world then view == Fresh else view != Broken && fault == NoFault
  }

  function SeenWorkload(c: Config, spec: Spec, st: Status, now: int, tmpl: Template, env: Env): Seen {
    if st.expiresAt.None? && c.parse(TimeToLive(spec, tmpl)).None? then InvalidTtl(tmpl)
    else Pods(tmpl, now, ListPods(c, env))
  }

  /** What a reconcile that gets through to its write has seen. */
  function SeenBy(c: Config, spec: Spec, st: Status, now: int, env: Env): Seen
    requires !GetTemplate(env, spec.templateRef).Unreadable?
  {
    match GetTemplate(env, spec.templateRef)
    case Absent => TemplateMissing
    case Got(tmpl) => if !tmpl.ready then TemplateNotReady else SeenWorkload(c, spec, st, now, tmpl, env)
  }

  /** Every object that the template calls for is there, or can be created. */
  predicate CanProvision(c: Config, tmpl: Template, env: Env, world: map<Key, Owned>) {
    && CanEnsure(world, P.DeploymentKey(c), env.deploymentView, env.deploymentFault)
    && (Exposed(tmpl.ports) != [] ==> CanEnsure(world, P.ServiceKey(c), env.serviceView, env.serviceFault))
    && CanEnsure(world, P.FenceKey(c), env.fenceView, env.fenceFault)
  }

  /** The pods are looked at only if the instance has, or can be given, an expiry. */
  predicate CanConclude(c: Config, spec: Spec, st: Status, tmpl: Template, env: Env) {
    (st.expiresAt.None? && c.parse(TimeToLive(spec, tmpl)).None?) || env.pods.Some?
  }

  /** No call before the write fails. */
  predicate GetsToWrite(c: Config, spec: Spec, st: Status, env: Env, world: map<Key, Owned>) {
    match GetTemplate(env, spec.templateRef)
    case Unreadable => false
    case Absent => true
    case Got(tmpl) => tmpl.ready ==> CanProvision(c, tmpl, env, world) && CanConclude(c, spec, st, tmpl, env)
  }

  // ----- Told by what was there to see

  predicate IsPodOf(c: Config, pod: Pod) {
    && pod.namespace == c.namespace
    && "kimo.io/instance" in pod.labels && pod.labels["kimo.io/instance"] == c.name
  }

  /** The first of the instance's own pods. */
  ghost predicate FirstPod(c: Config, env: Env, pod: Pod) {
    && env.pods.Some?
    && exists i ::
         && 0 <= i < |env.pods.value| && env.pods.value[i] == pod && IsPodOf(c, pod)
         && forall j :: 0 <= j < i ==> !IsPodOf(c, env.pods.value[j])
  }

  ghost predicate TemplateGone(spec: Spec, env: Env) {
    env.templates.Some? && spec.templateRef !in env.templates.value
  }

  ghost predicate TemplateIs(spec: Spec, env: Env, tmpl: Template) {
    env.templates.Some? && spec.templateRef in env.templates.value && env.templates.value[spec.templateRef] == tmpl
  }

  /** The instance has no dates, and the time to live that it would get them from is not a duration. */
  ghost predicate BadTtl(c: Config, spec: Spec, st: Status, tmpl: Template) {
    && st.expiresAt == None
    && c.parse(if spec.ttlOverride != "" then spec.ttlOverride else tmpl.ttl) == None
  }

  /** The template is ready, and the instance has its dates or can be given them. */
  ghost predicate GoesOn(c: Config, spec: Spec, st: Status, env: Env, tmpl: Template) {
    TemplateIs(spec, env, tmpl) && tmpl.ready && !BadTtl(c, spec, st, tmpl)
  }

  /** The template and the pod that the verdict depends on. */
  ghost predicate Decides(c: Config, spec: Spec, st: Status, env: Env, tmpl: Template, pod: Pod) {
    GoesOn(c, spec, st, env, tmpl) && FirstPod(c, env, pod)
  }

  /** One more unready observation makes as many as the template allows; 0 stands for 3. */
  ghost predicate TooMany(st: Status, tmpl: Template) {
    Wrap32(st.unhealthyCount + 1) >= if tmpl.unhealthyThreshold == 0 then 3 else tmpl.unhealthyThreshold
  }

  /** Exactly when each phase is stored. */
  ghost predicate PhaseFollows(c: Config, spec: Spec, st: Status, env: Env, after: Status) {
    && (after.phase == Failed <==>
          || TemplateGone(spec, env)
          || (exists tmpl :: TemplateIs(spec, env, tmpl) && tmpl.ready && BadTtl(c, spec, st, tmpl))
          || (exists tmpl, pod :: Decides(c, spec, st, env, tmpl, pod) && pod.phase == PodFailed))
    && (after.phase == Pending <==> exists tmpl :: TemplateIs(spec, env, tmpl) && !tmpl.ready)
    && (after.phase == Running <==>
          exists tmpl, pod :: Decides(c, spec, st, env, tmpl, pod) && pod.phase == PodRunning && FirstReadyIsTrue(pod))
    && (after.phase == Unhealthy <==>
          exists tmpl, pod :: Decides(c, spec, st, env, tmpl, pod)
                              && pod.phase == PodRunning && !FirstReadyIsTrue(pod) && TooMany(st, tmpl))
    && after.phase in {Failed, Pending, Running, Unhealthy, Creating}
  }

  lemma {:induction false} FirstListed(pods: seq<Pod>, namespace: string, name: string)
    ensures PodWatch.Listing(pods, namespace, name) == [] <==> forall pod <- pods :: !BelongsTo(pod, namespace, name)
    ensures PodWatch.Listing(pods, namespace, name) != [] ==>
              exists i ::
                && 0 <= i < |pods| && pods[i] == PodWatch.Listing(pods, namespace, name)[0]
                && BelongsTo(pods[i], namespace, name)
                && forall j :: 0 <= j < i ==> !BelongsTo(pods[j], namespace, name)
  {
    hide BelongsTo;
    if pods != [] {
      var n := |pods| - 1;
      FirstListed(pods[..n], namespace, name);
      assert pods == pods[..n] + [pods[n]];
      var list := PodWatch.Listing(pods[..n], namespace, name);
      if list != [] {
        var i :| 0 <= i < n && pods[..n][i] == list[0] && BelongsTo(pods[..n][i], namespace, name)
                 && forall j :: 0 <= j < i ==> !BelongsTo(pods[..n][j], namespace, name);
        assert pods[i] == PodWatch.Listing(pods, namespace, name)[0];
      } else if BelongsTo(pods[n], namespace, name) {
        forall j | 0 <= j < n ensures !BelongsTo(pods[j], namespace, name) {
          assert pods[j] in pods[..n];
        }
        assert pods[n] == PodWatch.Listing(pods, namespace, name)[0];
      }
    }
  }

  lemma BelongsMeaning(c: Config, pod: Pod)
    ensures BelongsTo(pod, c.namespace, c.name) <==> IsPodOf(c, pod)
  {
    assert LABEL_INSTANCE in map[LABEL_INSTANCE := c.name];
  }

  /** The pod that decides is the first of the instance's own, if there is one. */
  lemma ListedFirst(c: Config, env: Env, pod: Pod)
    requires env.pods.Some?
    ensures FirstPod(c, env, pod) <==> ListPods(c, env) != [] && ListPods(c, env)[0] == pod
  {
    var pods := env.pods.value;
    forall p { BelongsMeaning(c, p); }
    hide BelongsTo;
    hide IsPodOf;
    FirstListed(pods, c.namespace, c.name);
  }

  /** The reason stored with the phase. */
  ghost predicate ReasonFollows(c: Config, spec: Spec, st: Status, env: Env, after: Status) {
    && (TemplateGone(spec, env) ==> after.reason == "template not found: " + spec.templateRef)
    && (forall tmpl :: TemplateIs(spec, env, tmpl) ==>
          && (!tmpl.ready ==> after.reason == "waiting for template to be ready")
          && (tmpl.ready && BadTtl(c, spec, st, tmpl) ==>
                after.reason == "invalid TTL: " + if spec.ttlOverride != "" then spec.ttlOverride else tmpl.ttl))
    && (forall tmpl :: GoesOn(c, spec, st, env, tmpl) ==>
          && ((forall pod :: !FirstPod(c, env, pod)) ==> after.reason == "waiting for pod to be scheduled")
          && (forall pod :: Decides(c, spec, st, env, tmpl, pod) ==>
                match pod.phase
                case PodFailed => after.reason == "pod failed: " + pod.reason
                case PodRunning =>
                  after.reason == if FirstReadyIsTrue(pod) then ""
                                  else if TooMany(st, tmpl) then "pod failing readiness checks"
                                  else "waiting for pod to become ready"
                case _ => after.reason == "waiting for pod to start"))
  }

  /** The health counter: a ready pod resets it, an unready one adds to it, nothing else touches it. */
  ghost predicate CounterFollows(c: Config, spec: Spec, st: Status, env: Env, after: Status) {
    var sawReady := exists tmpl, pod :: Decides(c, spec, st, env, tmpl, pod)
                                        && pod.phase == PodRunning && FirstReadyIsTrue(pod);
    var sawUnready := exists tmpl, pod :: Decides(c, spec, st, env, tmpl, pod)
                                          && pod.phase == PodRunning && !FirstReadyIsTrue(pod);
    after.unhealthyCount == if sawReady then 0
                            else if sawUnready then Wrap32(st.unhealthyCount + 1)
                            else st.unhealthyCount
  }

  function WholeSeconds(t: int): int {
    t - t % 1_000_000_000
  }

  /** The dates are given once, from the clock and the time to live; the pod name is given by a ready template. */
  ghost predicate DatesFollow(c: Config, spec: Spec, st: Status, now: int, env: Env, after: Status) {
    && (forall tmpl :: GoesOn(c, spec, st, env, tmpl) && st.expiresAt == None ==>
          var d := c.parse(if spec.ttlOverride != "" then spec.ttlOverride else tmpl.ttl);
          && d.Some? && after.startedAt == Some(WholeSeconds(now))
          && after.expiresAt == Some(WholeSeconds(now + d.value)))
    && (st.expiresAt.Some? || (forall tmpl :: !GoesOn(c, spec, st, env, tmpl)) ==>
          SameDates(after, Persisted(st)))
    && after.podName == (if exists tmpl :: TemplateIs(spec, env, tmpl) && tmpl.ready then c.name else st.podName)
    && after.endpoint == st.endpoint && after.message == st.message
  }

  ghost predicate Follows(c: Config, spec: Spec, st: Status, now: int, env: Env, after: Status) {
    && PhaseFollows(c, spec, st, env, after)
    && ReasonFollows(c, spec, st, env, after)
    && CounterFollows(c, spec, st, env, after)
    && DatesFollow(c, spec, st, now, env, after)
  }

  /** There is a template, and it is the only one; the same goes for the first pod. */
  lemma OnlyOne(c: Config, spec: Spec, env: Env, tmpl: Template)
    requires env.templates.Some? && spec.templateRef in env.templates.value
    requires tmpl == env.templates.value[spec.templateRef]
    ensures forall other :: TemplateIs(spec, env, other) <==> other == tmpl
    ensures env.pods.Some? && ListPods(c, env) != [] ==>
              forall pod :: FirstPod(c, env, pod) <==> pod == ListPods(c, env)[0]
    ensures env.pods.None? || ListPods(c, env) == [] ==> forall pod :: !FirstPod(c, env, pod)
  {
    if env.pods.Some? {
      forall pod { ListedFirst(c, env, pod); }
    }
  }

  lemma GoneFollows(c: Config, spec: Spec, st: Status, now: int, env: Env)
    requires TemplateGone(spec, env)
    ensures Follows(c, spec, st, now, env, Persisted(InstanceOutcome(c, spec, st, SeenBy(c, spec, st, now, env))))
  {
    hide FirstPod;
    hide FirstReadyIsTrue;
  }

  lemma UnreadyFollows(c: Config, spec: Spec, st: Status, now: int, env: Env, tmpl: Template)
    requires TemplateIs(spec, env, tmpl) && !tmpl.ready
    ensures Follows(c, spec, st, now, env, Persisted(InstanceOutcome(c, spec, st, SeenBy(c, spec, st, now, env))))
  {
    hide FirstPod;
    hide FirstReadyIsTrue;
  }

  lemma BadTtlFollows(c: Config, spec: Spec, st: Status, now: int, env: Env, tmpl: Template)
    requires TemplateIs(spec, env, tmpl) && tmpl.ready && BadTtl(c, spec, st, tmpl)
    ensures Follows(c, spec, st, now, env, Persisted(InstanceOutcome(c, spec, st, SeenBy(c, spec, st, now, env))))
  {
    hide FirstPod;
    hide FirstReadyIsTrue;
  }

  /** What is stored when the reconcile gets to look at the pods, in terms of the first one. */
  lemma LookedOutcome(c: Config, spec: Spec, st: Status, now: int, env: Env, tmpl: Template)
    requires GoesOn(c, spec, st, env, tmpl) && env.pods.Some?
    ensures var after := Persisted(InstanceOutcome(c, spec, st, SeenBy(c, spec, st, now, env)));
            var v := DeterminePhase(st.unhealthyCount, EffectiveThreshold(tmpl), Observe(ListPods(c, env)));
            && after.phase == v.phase && after.reason == v.reason && after.unhealthyCount == v.unhealthyCount
            && DatesFollow(c, spec, st, now, env, after)
  {
    assert forall other :: TemplateIs(spec, env, other) ==> other == tmpl;
    hide DeterminePhase;
    hide Observe;
  }

  lemma OnlyOneGoesOn(c: Config, spec: Spec, st: Status, env: Env, tmpl: Template)
    requires GoesOn(c, spec, st, env, tmpl) && env.pods.Some?
    ensures forall other :: GoesOn(c, spec, st, env, other) <==> other == tmpl
    ensures forall other :: TemplateIs(spec, env, other) <==> other == tmpl
    ensures !TemplateGone(spec, env) && tmpl.ready && !BadTtl(c, spec, st, tmpl)
    ensures var pods := ListPods(c, env);
            && Shows(pods, Observe(pods))
            && (forall pod :: FirstPod(c, env, pod) <==> pods != [] && pod == pods[0])
            && (forall other, pod ::
                  Decides(c, spec, st, env, other, pod) <==> other == tmpl && pods != [] && pod == pods[0])
  {
    OnlyOne(c, spec, env, tmpl);
    ObserveMeaning(ListPods(c, env), Observe(ListPods(c, env)));
    hide Shows;
    hide Observe;
    hide FirstPod;
  }

  lemma PhaseJudged(c: Config, spec: Spec, st: Status, env: Env, tmpl: Template, after: Status)
    requires GoesOn(c, spec, st, env, tmpl) && env.pods.Some?
    requires var v := DeterminePhase(st.unhealthyCount, EffectiveThreshold(tmpl), Observe(ListPods(c, env)));
             after.phase == v.phase && after.reason == v.reason && after.unhealthyCount == v.unhealthyCount
    ensures PhaseFollows(c, spec, st, env, after)
  {
    OnlyOneGoesOn(c, spec, st, env, tmpl);
    assert TooMany(st, tmpl) <==> Wrap32(st.unhealthyCount + 1) >= EffectiveThreshold(tmpl);
    hide TooMany;
    hide EffectiveThreshold;
    hide Wrap32;
    hide FirstPod;
    hide FirstReadyIsTrue;
    hide TemplateIs;
    hide TemplateGone;
    hide GoesOn;
    hide BadTtl;
    hide Observe;
    var pods := ListPods(c, env);
    hide Decides;
    if pods != [] {
      assert Decides(c, spec, st, env, tmpl, pods[0]);
    }
  }

  lemma ReasonJudged(c: Config, spec: Spec, st: Status, env: Env, tmpl: Template, after: Status)
    requires GoesOn(c, spec, st, env, tmpl) && env.pods.Some?
    requires var v := DeterminePhase(st.unhealthyCount, EffectiveThreshold(tmpl), Observe(ListPods(c, env)));
             after.phase == v.phase && after.reason == v.reason && after.unhealthyCount == v.unhealthyCount
    ensures ReasonFollows(c, spec, st, env, after)
  {
    OnlyOneGoesOn(c, spec, st, env, tmpl);
    assert TooMany(st, tmpl) <==> Wrap32(st.unhealthyCount + 1) >= EffectiveThreshold(tmpl);
    hide TooMany;
    hide EffectiveThreshold;
    hide Wrap32;
    hide FirstPod;
    hide FirstReadyIsTrue;
    hide TemplateIs;
    hide TemplateGone;
    hide GoesOn;
    hide BadTtl;
    hide Observe;
    var pods := ListPods(c, env);
    hide Decides;
    if pods != [] {
      assert Decides(c, spec, st, env, tmpl, pods[0]);
    }
  }

  lemma CounterJudged(c: Config, spec: Spec, st: Status, env: Env, tmpl: Template, after: Status)
    requires GoesOn(c, spec, st, env, tmpl) && env.pods.Some?
    requires var v := DeterminePhase(st.unhealthyCount, EffectiveThreshold(tmpl), Observe(ListPods(c, env)));
             after.phase == v.phase && after.reason == v.reason && after.unhealthyCount == v.unhealthyCount
    ensures CounterFollows(c, spec, st, env, after)
  {
    OnlyOneGoesOn(c, spec, st, env, tmpl);
    assert TooMany(st, tmpl) <==> Wrap32(st.unhealthyCount + 1) >= EffectiveThreshold(tmpl);
    hide TooMany;
    hide EffectiveThreshold;
    hide Wrap32;
    hide FirstPod;
    hide FirstReadyIsTrue;
    hide TemplateIs;
    hide TemplateGone;
    hide GoesOn;
    hide BadTtl;
    hide Observe;
    var pods := ListPods(c, env);
    hide Decides;
    if pods != [] {
      assert Decides(c, spec, st, env, tmpl, pods[0]);
    }
  }

  /** What is computed from all this has exactly the meaning told. */
  lemma OutcomeFollows(c: Config, spec: Spec, st: Status, now: int, env: Env, world: map<Key, Owned>)
    requires GetsToWrite(c, spec, st, env, world)
    ensures Follows(c, spec, st, now, env, Persisted(InstanceOutcome(c, spec, st, SeenBy(c, spec, st, now, env))))
  {
    hide InstanceOutcome;
    hide Follows;
    if spec.templateRef !in env.templates.value {
      GoneFollows(c, spec, st, now, env);
    } else {
      var tmpl := env.templates.value[spec.templateRef];
      if !tmpl.ready {
        UnreadyFollows(c, spec, st, now, env, tmpl);
      } else if BadTtl(c, spec, st, tmpl) {
        BadTtlFollows(c, spec, st, now, env, tmpl);
      } else {
        PodsFollow(c, spec, st, now, env, tmpl);
      }
    }
  }

  lemma PodsFollow(c: Config, spec: Spec, st: Status, now: int, env: Env, tmpl: Template)
    requires GoesOn(c, spec, st, env, tmpl) && env.pods.Some?
    ensures Follows(c, spec, st, now, env, Persisted(InstanceOutcome(c, spec, st, SeenBy(c, spec, st, now, env))))
  {
    LookedOutcome(c, spec, st, now, env, tmpl);
    var after := Persisted(InstanceOutcome(c, spec, st, SeenBy(c, spec, st, now, env)));
    PhaseJudged(c, spec, st, env, tmpl, after);
    ReasonJudged(c, spec, st, env, tmpl, after);
    CounterJudged(c, spec, st, env, tmpl, after);
    hide InstanceOutcome;
    hide PhaseFollows;
    hide ReasonFollows;
    hide CounterFollows;
    hide DatesFollow;
  }

  // ----- What one reconcile does, told in the same terms

  /** Every call up to the write gets its answer. */
  ghost predicate NoCallFails(c: Config, spec: Spec, st: Status, env: Env, world: map<Key, Owned>) {
    && env.templates.Some?
    && forall tmpl :: TemplateIs(spec, env, tmpl) && tmpl.ready ==>
         && CanEnsure(world, Key(DeploymentKind, c.name), env.deploymentView, env.deploymentFault)
         && ((exists p :: p in tmpl.ports && p.expose) ==>
               CanEnsure(world, Key(ServiceKind, c.name), env.serviceView, env.serviceFault))
         && CanEnsure(world, Key(NetworkFenceKind, c.name), env.fenceView, env.fenceFault)
         && (BadTtl(c, spec, st, tmpl) || env.pods.Some?)
  }

  lemma GetsToWriteMeaning(c: Config, spec: Spec, st: Status, env: Env, world: map<Key, Owned>)
    ensures GetsToWrite(c, spec, st, env, world) <==> NoCallFails(c, spec, st, env, world)
  {
    if env.templates.Some? && spec.templateRef in env.templates.value {
      var tmpl := env.templates.value[spec.templateRef];
      assert TemplateIs(spec, env, tmpl);
      forall p { InExposed(tmpl.ports, p); }
      if Exposed(tmpl.ports) != [] {
        assert Exposed(tmpl.ports)[0] in Exposed(tmpl.ports);
      }
      hide CanEnsure;
      hide Exposed;
    }
  }

  /** The notification, if there is one: of the new phase, with what was stored. */
  ghost predicate Announced(c: Config, spec: Spec, before: Status, after: Status,
                            notified: seq<Event>, more: seq<Event>) {
    if c.backend && after.phase != before.phase && after.phase !in {Unset, Pending, Terminating} then
      && |more| == |notified| + 1 && notified <= more
      && Carries(more[|notified|], c.name, spec, after) && KindFits(more[|notified|].kind, after.phase)
    else more == notified
  }

  /**
   A reconcile of the given version: when it succeeds, what it stores and says, and what it answers, all in terms of
   the object it read and of what there was to see.
   */
  ghost predicate Told(c: Config, store: seq<Instance>, version: nat, now: int, env: Env, world: map<Key, Owned>,
                       notified: seq<Event>, after: seq<Instance>, reply: Reply, more: seq<Event>)
    requires version < |store|
  {
    var spec, before := store[version].spec, store[version].status;
    var submits := NoCallFails(c, spec, before, env, world) && version == |store| - 1;
    && (reply != Error <==> submits && env.updateFault == NoFault)
    && (reply != Error ==>
          && reply.after == (if exists tmpl :: TemplateIs(spec, env, tmpl) && !tmpl.ready then 10_000_000_000
                             else 15_000_000_000)
          && after != [] && Announced(c, spec, before, after[|after| - 1].status, notified, more))
    && (reply == Error ==> more == notified)
    && (if submits && env.updateFault != Refused then
          && after != [] && after[|after| - 1].spec == spec
          && Follows(c, spec, before, now, env, after[|after| - 1].status)
          && (after == store || after == store + [after[|after| - 1]])
        else after == store)
  }

  lemma Telling(c: Config, store: seq<Instance>, version: nat, now: int, env: Env, world: map<Key, Owned>,
                notified: seq<Event>, after: seq<Instance>, reply: Reply, more: seq<Event>)
    requires version < |store|
    requires var spec, before := store[version].spec, store[version].status;
             var writes := GetsToWrite(c, spec, before, env, world);
             var accepted := version + 1 == |store| && env.updateFault == NoFault;
             && (reply != Error <==> writes && accepted)
             && (!writes ==> after == store && more == notified)
             && (writes ==>
                   var seen := SeenBy(c, spec, before, now, env);
                   var outcome := InstanceOutcome(c, spec, before, seen);
                   var due := Due(c, spec, before, outcome);
                   && (reply != Error ==>
                         reply == Requeue(if seen == TemplateNotReady then TEMPLATE_REQUEUE else HEALTH_REQUEUE))
                   && after == StoreAfterStatus(store, version, outcome, env.updateFault)
                   && more == notified + if accepted && c.backend && due.Some? then [due.value] else [])
    ensures Told(c, store, version, now, env, world, notified, after, reply, more)
  {
    var spec, before := store[version].spec, store[version].status;
    GetsToWriteMeaning(c, spec, before, env, world);
    hide NoCallFails;
    if GetsToWrite(c, spec, before, env, world) {
      var seen := SeenBy(c, spec, before, now, env);
      OutcomeFollows(c, spec, before, now, env, world);
      AnnouncedMeaning(c, spec, before, InstanceOutcome(c, spec, before, seen), notified);
      WaitsForTemplate(c, spec, before, now, env);
      hide GetsToWrite;
      hide SeenBy;
      hide InstanceOutcome;
      hide Due;
      hide Follows;
      hide TemplateIs;
      hide Announced;
    }
  }

  lemma AnnouncedMeaning(c: Config, spec: Spec, before: Status, outcome: Status, notified: seq<Event>)
    ensures var due := Due(c, spec, before, outcome);
            Announced(c, spec, before, Persisted(outcome), notified,
                      notified + if c.backend && due.Some? then [due.value] else [])
  {
    DueMeaning(c, spec, before, outcome);
    hide Due;
  }

  lemma WaitsForTemplate(c: Config, spec: Spec, st: Status, now: int, env: Env)
    requires env.templates.Some?
    ensures SeenBy(c, spec, st, now, env) == TemplateNotReady <==>
              exists tmpl :: TemplateIs(spec, env, tmpl) && !tmpl.ready
  {
    if spec.templateRef in env.templates.value {
      assert TemplateIs(spec, env, env.templates.value[spec.templateRef]);
    }
  }
}
