/** What one reconcile of either controller computes from the object it read and from what it observed. */
module Instances {
  import opened Common
  import opened Time
  import opened ApiTypes

  /** The instance's name and namespace, the duration parser, and whether a scoring backend is configured. */
  datatype Config = Config(name: string, namespace: string, parse: DurationParser, backend: bool)

  predicate Terminal(p: Phase) {
    p == Expired || p == Failed
  }

  /** eventForPhase, which knows only the phases that the instance controller writes. */
  function EventForPhase(p: Phase): Option<EventType> {
    match p
    case Creating => Some(EventCreating)
    case Running => Some(EventRunning)
    case Unhealthy => Some(EventUnhealthy)
    case Failed => Some(EventFailed)
    case _ => None
  }

  // ----- The instance controller

  function EffectiveThreshold(tmpl: Template): Int32 {
    if tmpl.unhealthyThreshold == 0 then 3 else tmpl.unhealthyThreshold
  }

  function TimeToLive(spec: Spec, tmpl: Template): string {
    if spec.ttlOverride != "" then spec.ttlOverride else tmpl.ttl
  }

  /** ensureExpiry: dates the instance once; an existing expiry is left alone and its TTL is not parsed again. */
  function EnsureExpiry(c: Config, spec: Spec, st: Status, tmpl: Template, now: int): Result<Status, string> {
    if st.expiresAt.Some? then Ok(st)
    else
      match c.parse(TimeToLive(spec, tmpl))
      case None => Err("invalid TTL: " + TimeToLive(spec, tmpl))
      case Some(d) => Ok(st.(startedAt := Some(now), expiresAt := Some(now + d)))
  }

  const READY_CONDITION := "Ready"

  predicate PodReady(conditions: seq<Condition>) {
    if conditions == [] then false
    else if conditions[0].kind == READY_CONDITION then conditions[0].status == ConditionTrue
    else PodReady(conditions[1..])
  }

  /** InNamespace and MatchingLabels on the instance label: the pods that determinePhase asks for. */
  predicate BelongsTo(pod: Pod, namespace: string, name: string) {
    pod.namespace == namespace && Selects(map[LABEL_INSTANCE := name], pod.labels)
  }

  /** The view of the pods that determinePhase acts on: only the first listed pod counts. */
  datatype Health = NoPod | PodHasFailed(reason: string) | PodIsReady | PodIsUnready | PodNotStarted

  function Observe(pods: seq<Pod>): Health {
    if pods == [] then NoPod
    else
      match pods[0].phase
      case PodFailed => PodHasFailed(pods[0].reason)
      case PodRunning => if PodReady(pods[0].conditions) then PodIsReady else PodIsUnready
      case _ => PodNotStarted
  }

  datatype Verdict = Verdict(unhealthyCount: Int32, phase: Phase, reason: string)

  function DeterminePhase(count: Int32, threshold: Int32, health: Health): Verdict {
    match health
    case NoPod => Verdict(count, Creating, "waiting for pod to be scheduled")
    case PodHasFailed(reason) => Verdict(count, Failed, "pod failed: " + reason)
    case PodIsReady => Verdict(0, Running, "")
    case PodIsUnready =>
      var next := Wrap32(count + 1);
      if next >= threshold then Verdict(next, Unhealthy, "pod failing readiness checks")
      else Verdict(next, Creating, "waiting for pod to become ready")
    case PodNotStarted => Verdict(count, Creating, "waiting for pod to start")
  }

  /** Everything a finished instance reconcile saw after it fetched the instance. */
  datatype Seen =
    | TemplateMissing
    | TemplateNotReady
    | InvalidTtl(tmpl: Template)
    | Pods(tmpl: Template, now: int, pods: seq<Pod>)

  function MovedTo(st: Status, phase: Phase, reason: string): Status {
    st.(phase := phase, reason := reason)
  }

  function WithPodName(c: Config, st: Status): Status {
    st.(podName := c.name)
  }

  /** The status an instance reconcile submits, given the object it fetched. */
  function InstanceOutcome(c: Config, spec: Spec, st: Status, seen: Seen): Status {
    match seen
    case TemplateMissing => MovedTo(st, Failed, "template not found: " + spec.templateRef)
    case TemplateNotReady => MovedTo(st, Pending, "waiting for template to be ready")
    case InvalidTtl(tmpl) =>
      MovedTo(WithPodName(c, st), Failed, "invalid TTL: " + TimeToLive(spec, tmpl))
    case Pods(tmpl, now, pods) =>
      match EnsureExpiry(c, spec, WithPodName(c, st), tmpl, now)
      case Err(e) => st
      case Ok(dated) =>
        var v := DeterminePhase(dated.unhealthyCount, EffectiveThreshold(tmpl), Observe(pods));
        MovedTo(dated.(unhealthyCount := v.unhealthyCount), v.phase, v.reason)
  }

  // ----- The lifecycle controller

  const EXPIRING_GRACE_WINDOW: int := 60 * SECOND

  datatype LifecycleAction =
    | Wait(requeueAfter: int)
    | Move(phase: Phase, reason: string, event: EventType, requeueAfter: int)

  /** The switch of the lifecycle reconcile. */
  function Lifecycle(st: Status, now: int): LifecycleAction {
    if Terminal(st.phase) || st.expiresAt.None? then Wait(30 * SECOND)
    else
      var remaining := Sub(st.expiresAt.value, now);
      if remaining <= 0 then Move(Expired, "TTL expired", EventExpired, 60 * SECOND)
      else if remaining <= EXPIRING_GRACE_WINDOW && st.phase != Expiring then
        Move(Expiring, "entering expiry grace window", EventExpiring, remaining)
      else Wait(remaining - EXPIRING_GRACE_WINDOW)
  }

  function LifecycleOutcome(st: Status, now: int): Status {
    match Lifecycle(st, now)
    case Wait(_) => st
    case Move(phase, reason, _, _) => MovedTo(st, phase, reason)
  }

  // ----- Persisted writes

  /** What made a reconcile write: an observation of the workload, or the passing of time. */
  datatype Cause = Observed(seen: Seen) | Elapsed(now: int)

  function Outcome(c: Config, spec: Spec, st: Status, cause: Cause): Status {
    match cause
    case Observed(seen) => InstanceOutcome(c, spec, st, seen)
    case Elapsed(now) => LifecycleOutcome(st, now)
  }

  /** The form in which the API server keeps a status: timestamps lose their fraction of a second. */
  function Persisted(st: Status): Status {
    st.(startedAt := match st.startedAt case None => None case Some(t) => Some(Truncated(t)),
        expiresAt := match st.expiresAt case None => None case Some(t) => Some(Truncated(t)))
  }

  /** A status write that the API server accepted at time `at`. */
  datatype Write = Write(spec: Spec, before: Status, after: Status, cause: Cause, at: int)

  /** The guards a reconcile passes before it writes for this cause. */
  ghost predicate Justified(c: Config, spec: Spec, st: Status, cause: Cause) {
    && !Terminal(st.phase)
    && match cause
       case Observed(InvalidTtl(tmpl)) => st.expiresAt.None? && c.parse(TimeToLive(spec, tmpl)).None?
       case Observed(Pods(tmpl, now, pods)) => st.expiresAt.Some? || c.parse(TimeToLive(spec, tmpl)).Some?
       case Observed(_) => true
       case Elapsed(now) => Lifecycle(st, now).Move?
  }

  /** The event type that names each phase, whichever controller writes it; entering Pending is silent. */
  function PhaseEvent(p: Phase): Option<EventType> {
    match p
    case Creating => Some(EventCreating)
    case Running => Some(EventRunning)
    case Unhealthy => Some(EventUnhealthy)
    case Expiring => Some(EventExpiring)
    case Expired => Some(EventExpired)
    case Failed => Some(EventFailed)
    case Unset | Pending | Terminating => None
  }

  function MakeEvent(c: Config, spec: Spec, st: Status, kind: EventType): Event {
    Event(kind, c.name, spec.templateRef, spec.team, spec.player, st.endpoint, st.reason)
  }

  /** The notification owed for a write: one when it changes the phase to one that has an event, else none. */
  function Due(c: Config, spec: Spec, before: Status, after: Status): Option<Event> {
    if before.phase == after.phase then None
    else
      match PhaseEvent(after.phase)
      case None => None
      case Some(kind) => Some(MakeEvent(c, spec, after, kind))
  }
}
