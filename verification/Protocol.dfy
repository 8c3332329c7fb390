/**
 The life of one ChallengeInstance as a concurrent protocol.

 Any number of reconciles of the two controllers and of extend requests are in flight. Each reads
 some version of the object (a cache may be arbitrarily stale), works on a copy, and submits an
 update that the API server accepts only if the version it read is still the current one. Any
 of them may stop between two steps, because of an error or a crash.
 */
module Protocol {
  import opened Common
  import opened ApiTypes
  import opened Instances
  import opened Workload

  /** A reconcile's working copy: the version it was read at, and the object as changed so far. */
  datatype Copy = Copy(base: nat, spec: Spec, st: Status)

  /** Where a reconcile or an extend request stands. */
  datatype Worker =
    | Done
    | Fetched(w: Copy)                                      // instance controller: object read, not terminal
    | Templated(w: Copy, tmpl: Template)                    // template read and ready
    | Deployed(w: Copy, tmpl: Template)                     // Deployment exists
    | Serviced(w: Copy, tmpl: Template)                     // Service exists if one is needed, PodName set
    | Fenced(w: Copy, tmpl: Template)                       // NetworkFence exists
    | Dated(w: Copy, tmpl: Template, now: int)              // expiry ensured at time `now`
    | LifecycleFetched(w: Copy)                             // lifecycle controller: object read
    | StatusUpdate(w: Copy, cause: Cause, event: Option<Event>) // about to submit a status
    | SpecUpdate(base: nat, spec: Spec)                     // extend request, about to submit a spec
    | Owing(due: Event, write: nat)                         // update accepted, notification of that write not yet sent

  datatype State = State(
    clock: int,
    store: seq<Instance>,         // every version of the object, oldest first
    world: map<Key, Owned>,       // objects created for instances
    workers: seq<Worker>,
    log: seq<Write>,              // accepted status writes, in order
    sent: seq<Event>,             // Notify calls, in order
    sources: seq<nat>,            // for each Notify call, the accepted write that it announces
    lost: multiset<Event>)        // notifications that a crash prevented

  datatype Step =
    | Tick(d: nat)
    | StartInstance(version: nat)
    | StartLifecycle(version: nat)
    | StartExtend(version: nat, ttl: string)
    | FindNoTemplate(i: nat)
    | FindUnreadyTemplate(i: nat)
    | FindTemplate(i: nat, tmpl: Template)
    | FindDeployment(i: nat)
    | CreateDeployment(i: nat)
    | SkipService(i: nat)
    | FindService(i: nat)
    | CreateService(i: nat)
    | FindFence(i: nat)
    | CreateFence(i: nat)
    | DateInstance(i: nat)
    | ListPods(i: nat, pods: seq<Pod>)
    | CheckExpiry(i: nat)
    | Submit(i: nat)
    | Notify(i: nat)
    | Stop(i: nat)

  function Current(s: State): Instance
    requires s.store != []
  {
    s.store[|s.store| - 1]
  }

  function DeploymentKey(c: Config): Key { Key(DeploymentKind, c.name) }

  function ServiceKey(c: Config): Key { Key(ServiceKind, c.name) }

  function FenceKey(c: Config): Key { Key(NetworkFenceKind, c.name) }

  ghost predicate Init(s: State) {
    && (exists spec :: s.store == [Instance(spec, EMPTY_STATUS)])
    && s.world == map[] && s.workers == [] && s.log == []
    && s.sent == [] && s.sources == [] && s.lost == multiset{}
  }

  ghost predicate At(s: State, i: nat) {
    i < |s.workers|
  }

  ghost predicate Enabled(c: Config, s: State, step: Step) {
    && s.store != []
    && match step
       case Tick(_) => true
       case StartInstance(v) => v < |s.store|
       case StartLifecycle(v) => v < |s.store|
       case StartExtend(v, ttl) => v < |s.store| && c.parse(ttl).Some?
       case FindNoTemplate(i) => At(s, i) && s.workers[i].Fetched?
       case FindUnreadyTemplate(i) => At(s, i) && s.workers[i].Fetched?
       case FindTemplate(i, tmpl) =>
         At(s, i) && s.workers[i].Fetched? && tmpl.ready && tmpl.name == s.workers[i].w.spec.templateRef
       case FindDeployment(i) => At(s, i) && s.workers[i].Templated? && DeploymentKey(c) in s.world
       case CreateDeployment(i) => At(s, i) && s.workers[i].Templated? && DeploymentKey(c) !in s.world
       case SkipService(i) => At(s, i) && s.workers[i].Deployed? && Exposed(s.workers[i].tmpl.ports) == []
       case FindService(i) =>
         At(s, i) && s.workers[i].Deployed? && Exposed(s.workers[i].tmpl.ports) != [] && ServiceKey(c) in s.world
       case CreateService(i) =>
         At(s, i) && s.workers[i].Deployed? && Exposed(s.workers[i].tmpl.ports) != [] && ServiceKey(c) !in s.world
       case FindFence(i) => At(s, i) && s.workers[i].Serviced? && FenceKey(c) in s.world
       case CreateFence(i) => At(s, i) && s.workers[i].Serviced? && FenceKey(c) !in s.world
       case DateInstance(i) => At(s, i) && s.workers[i].Fenced?
       case ListPods(i, pods) =>
         At(s, i) && s.workers[i].Dated? && forall pod <- pods :: BelongsTo(pod, c.namespace, c.name)
       case CheckExpiry(i) => At(s, i) && s.workers[i].LifecycleFetched?
       case Submit(i) => At(s, i) && (s.workers[i].StatusUpdate? || s.workers[i].SpecUpdate?)
       case Notify(i) => At(s, i) && s.workers[i].Owing?
       case Stop(i) => At(s, i)
  }

  function Start(s: State, worker: Worker): State {
    s.(workers := s.workers + [worker])
  }

  function Go(s: State, i: nat, worker: Worker): State
    requires i < |s.workers|
  {
    s.(workers := s.workers[i := worker])
  }

  /**
   transition up to the call of Update: it will notify if the phase of its copy changes to one that has an event.
   */
  function Transition(c: Config, w: Copy, phase: Phase, reason: string, seen: Seen): Worker {
    var st := MovedTo(w.st, phase, reason);
    var kind := EventForPhase(phase);
    StatusUpdate(w.(st := st), Observed(seen),
                 if w.st.phase != phase && c.backend && kind.Some? then Some(MakeEvent(c, w.spec, st, kind.value))
                 else None)
  }

  /** notifyAndSetPhase up to the call of Update: it will notify in any case. */
  function SetPhase(c: Config, w: Copy, phase: Phase, reason: string, kind: EventType, now: int): Worker {
    var st := MovedTo(w.st, phase, reason);
    StatusUpdate(w.(st := st), Elapsed(now), if c.backend then Some(MakeEvent(c, w.spec, st, kind)) else None)
  }

  /** The API server's answer to an update of the status. */
  function AcceptStatus(s: State, w: Copy, cause: Cause): State
    requires s.store != []
  {
    var now := Current(s);
    var after := Persisted(w.st);
    s.(store := if after == now.status then s.store else s.store + [Instance(now.spec, after)],
       log := s.log + [Write(now.spec, now.status, after, cause, s.clock)])
  }

  /** The API server's answer to an update of the spec: the status it carries is ignored. */
  function AcceptSpec(s: State, spec: Spec): State
    requires s.store != []
  {
    var now := Current(s);
    s.(store := if spec == now.spec then s.store else s.store + [Instance(spec, now.status)])
  }

  predicate UpToDate(s: State, base: nat) {
    base + 1 == |s.store|
  }

  ghost function Apply(c: Config, s: State, step: Step): State
    requires Enabled(c, s, step)
  {
    match step
    case Tick(d) => s.(clock := s.clock + d)
    case StartInstance(v) =>
      if Terminal(s.store[v].status.phase) then s
      else Start(s, Fetched(Copy(v, s.store[v].spec, s.store[v].status)))
    case StartLifecycle(v) => Start(s, LifecycleFetched(Copy(v, s.store[v].spec, s.store[v].status)))
    case StartExtend(v, ttl) => Start(s, SpecUpdate(v, s.store[v].spec.(ttlOverride := ttl)))
    case FindNoTemplate(i) =>
      var w := s.workers[i].w;
      Go(s, i, Transition(c, w, Failed, "template not found: " + w.spec.templateRef, TemplateMissing))
    case FindUnreadyTemplate(i) =>
      var w := s.workers[i].w;
      Go(s, i, Transition(c, w, Pending, "waiting for template to be ready", TemplateNotReady))
    case FindTemplate(i, tmpl) => Go(s, i, Templated(s.workers[i].w, tmpl))
    case FindDeployment(i) => Go(s, i, Deployed(s.workers[i].w, s.workers[i].tmpl))
    case CreateDeployment(i) =>
      var x := s.workers[i];
      Go(s, i, Deployed(x.w, x.tmpl))
        .(world := s.world[DeploymentKey(c) := BuildDeployment(c.name, x.w.spec.team, x.tmpl)])
    case SkipService(i) => Go(s, i, Serviced(Named(c, s.workers[i].w), s.workers[i].tmpl))
    case FindService(i) => Go(s, i, Serviced(Named(c, s.workers[i].w), s.workers[i].tmpl))
    case CreateService(i) =>
      var x := s.workers[i];
      Go(s, i, Serviced(Named(c, x.w), x.tmpl)).(world := s.world[ServiceKey(c) := BuildService(c.name, x.tmpl)])
    case FindFence(i) => Go(s, i, Fenced(s.workers[i].w, s.workers[i].tmpl))
    case CreateFence(i) =>
      var x := s.workers[i];
      Go(s, i, Fenced(x.w, x.tmpl)).(world := s.world[FenceKey(c) := NetworkFence(BuildFence(c.name, x.tmpl))])
    case DateInstance(i) =>
      var x := s.workers[i];
      (match EnsureExpiry(c, x.w.spec, x.w.st, x.tmpl, s.clock)
       case Err(e) => Go(s, i, Transition(c, x.w, Failed, e, InvalidTtl(x.tmpl)))
       case Ok(st) => Go(s, i, Dated(x.w.(st := st), x.tmpl, s.clock)))
    case ListPods(i, pods) =>
      var x := s.workers[i];
      var v := DeterminePhase(x.w.st.unhealthyCount, EffectiveThreshold(x.tmpl), Observe(pods));
      Go(s, i, Transition(c, x.w.(st := x.w.st.(unhealthyCount := v.unhealthyCount)), v.phase, v.reason,
                          Pods(x.tmpl, x.now, pods)))
    case CheckExpiry(i) =>
      var w := s.workers[i].w;
      (match Lifecycle(w.st, s.clock)
       case Wait(_) => Go(s, i, Done)
       case Move(phase, reason, kind, _) => Go(s, i, SetPhase(c, w, phase, reason, kind, s.clock)))
    case Submit(i) =>
      (match s.workers[i]
       case StatusUpdate(w, cause, event) =>
         if !UpToDate(s, w.base) then Go(s, i, Done)
         else Go(AcceptStatus(s, w, cause), i, if event.Some? then Owing(event.value, |s.log|) else Done)
       case SpecUpdate(base, spec) =>
         if !UpToDate(s, base) then Go(s, i, Done) else Go(AcceptSpec(s, spec), i, Done))
    case Notify(i) =>
      var x := s.workers[i];
      Go(s, i, Done).(sent := s.sent + [x.due], sources := s.sources + [x.write])
    case Stop(i) =>
      var gone := Go(s, i, Done);
      if s.workers[i].Owing? then gone.(lost := s.lost + multiset{s.workers[i].due}) else gone
  }

  function Named(c: Config, w: Copy): Copy {
    w.(st := WithPodName(c, w.st))
  }

  ghost predicate Next(c: Config, s: State, t: State) {
    exists step :: Enabled(c, s, step) && t == Apply(c, s, step)
  }

  /** A run: consecutive states of the protocol, from the creation of the instance on. */
  ghost predicate Run(c: Config, run: seq<State>) {
    && run != [] && Init(run[0])
    && forall k :: 0 < k < |run| ==> Next(c, run[k - 1], run[k])
  }

  ghost function Last(run: seq<State>): State
    requires run != []
  {
    run[|run| - 1]
  }

  /** Every run can be continued by every step that its last state enables. */
  lemma Continue(c: Config, run: seq<State>, step: Step) returns (longer: seq<State>)
    requires Run(c, run) && Enabled(c, Last(run), step)
    ensures Run(c, longer) && longer == run + [Apply(c, Last(run), step)]
  {
    hide Apply;
    var t := Apply(c, Last(run), step);
    longer := run + [t];
    assert Next(c, Last(run), t);
    forall k | 0 < k < |longer| ensures Next(c, longer[k - 1], longer[k]) {
      assert k < |run| ==> Next(c, run[k - 1], run[k]);
    }
  }
}
