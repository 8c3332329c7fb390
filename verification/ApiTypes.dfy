/** The custom resources and the Kubernetes objects the controllers read and write. */
module ApiTypes {
  import opened Common
  import opened Time

  type Int32 = n: int | -0x8000_0000 <= n <= 0x7FFF_FFFF

  /** Two's-complement wrap-around of a Go int32. */
  function Wrap32(n: int): Int32 {
    (n + 0x8000_0000) % 0x1_0000_0000 - 0x8000_0000
  }

  const LABEL_CHALLENGE := "kimo.io/challenge"
  const LABEL_TEAM := "kimo.io/team"
  const LABEL_INSTANCE := "kimo.io/instance"

  // Label maps and label selectors are both maps of strings.
  type Labels = map<string, string>

  /** The meaning of matchLabels: every listed pair occurs among the object's labels. */
  predicate Selects(selector: Labels, labels: Labels) {
    forall k <- selector :: k in labels && labels[k] == selector[k]
  }

  // ----- ChallengeInstance

  // Unset is the empty string that a new object carries.
  datatype Phase = Unset | Pending | Creating | Running | Unhealthy | Expiring | Expired | Terminating | Failed

  datatype Spec = Spec(templateRef: string, team: string, player: string, ttlOverride: string)

  datatype Status = Status(
    phase: Phase,
    reason: string,
    endpoint: string,
    startedAt: Option<int>,
    expiresAt: Option<int>,
    podName: string,
    unhealthyCount: Int32,
    message: string)

  const EMPTY_STATUS := Status(Unset, "", "", None, None, "", 0, "")

  datatype Instance = Instance(spec: Spec, status: Status)

  // ----- ChallengeTemplate

  datatype Port = Port(name: string, containerPort: Int32, expose: bool)

  datatype Template = Template(name: string, ready: bool, ttl: string, ports: seq<Port>, unhealthyThreshold: Int32)

  // ----- Pods

  datatype PodPhase = PodPending | PodRunning | PodSucceeded | PodFailed | PodUnknown

  datatype ConditionStatus = ConditionTrue | ConditionFalse | ConditionUnknown

  datatype Condition = Condition(kind: string, status: ConditionStatus)

  datatype Pod = Pod(name: string, namespace: string, labels: Labels,
      phase: PodPhase, reason: string, conditions: seq<Condition>)

  // ----- NetworkFence

  datatype AllowRule = AllowRule(cidr: string, port: Int32)

  datatype DenyRule = DenyRule(to: string)

  datatype Fence = Fence(instanceRef: string, allowRules: seq<AllowRule>, denyRules: seq<DenyRule>, allowEgress: bool)

  // ----- Objects owned by an instance

  datatype ServicePort = ServicePort(name: string, port: Int32, targetPort: Int32)

  datatype Owned =
    | Deployment(selector: Labels, podLabels: Labels)
    | Service(selector: Labels, ports: seq<ServicePort>)
    | NetworkFence(fence: Fence)

  datatype Kind = DeploymentKind | ServiceKind | NetworkFenceKind

  // Objects of one kind are told apart by name; everything lives in one namespace.
  datatype Key = Key(kind: Kind, name: string)

  // ----- Scoring backend

  datatype EventType =
    | EventCreating
    | EventRunning
    | EventUnhealthy
    | EventExpiring
    | EventExpired
    | EventFailed

  datatype Event = Event(
    kind: EventType,
    instance: string,
    challenge: string,
    team: string,
    player: string,
    endpoint: string,
    reason: string)

  // time.ParseDuration, which is not part of this model: any parser will do.
  type DurationParser = string -> Option<Duration>
}
