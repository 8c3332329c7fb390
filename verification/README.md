# A verified model of KIMO's instance lifecycle

KIMO runs challenge instances on Kubernetes. Two controllers write the status of the same
ChallengeInstance: the instance controller follows the health of its pod, the lifecycle controller its time
to live; a REST handler changes its spec. This project models that protocol, the timers, the proof of work in front of
instance creation and the network fence around an instance, and proves what they guarantee.

| files | subject |
|---|---|
| `Common`, `Time`, `ApiTypes` | options and results, nanosecond instants with saturating differences, the custom resources |
| `Calls` | the answers that calls to the API server may get |
| `Instances`, `Workload` | what one reconcile computes; the objects it builds |
| `Protocol` | the lifecycle as a state machine over single API calls |
| `History`, `Invariants`, `Notifications`, `Safety` | what every step keeps, and what follows for every run |
| `Extensions` | exactly when an extension of the time to live takes effect |
| `Ordering` | in which order notifications go out, and exactly when it is the order of the writes |
| `Surprises` | runs from the creation on that show what is *not* guaranteed |
| `Reconciles` | what one reconcile meets, and what it stores and says, told by what was there to see |
| `ApiServer`, `InstanceReconciler`, `LifecycleReconciler` | the controllers as methods that change a cluster in place; each of their actions is a step of the protocol |
| `Timers`, `ChallengeSets` | the lifecycle controller, its timers and the work queue's pending wake-up; scheduled challenge sets |
| `ProofOfWork`, `PuzzleStore` | the bit count, and the single-use puzzles under concurrent requests |
| `NetworkPolicies`, `Pipeline`, `PodWatch` | fence to policy and its rule-by-rule reading, template to policy, labels, pod events |
| `Handlers` | creating, naming and listing instances |

`dafny verify dfyconfig.toml` checks everything.

## How the lifecycle is modelled

The API server is a sequence of versions of one object. A reconcile reads *any* version (a cache may be arbitrarily
stale), works on a copy in single steps (template, Deployment, Service, NetworkFence, expiry, pods), and submits an update
that is accepted only if the version it read is still the current one; then it may notify the backend. Any number of
reconciles and extend requests are in flight, the clock never goes back, and every reconcile may stop between any two
steps. Templates and pods may look different at every look, but a template is found only under the name asked for, and
pods are listed only in the instance's namespace and with its label. An update that changes nothing does not make a new
version.

The pivot is `Safety.AcceptedWritesAreCurrent`: a write that the API server accepts was computed from the status it
replaces. Accepted writes therefore form a *valid history* (`Safety.RunRefinesHistory`): as far as the status goes, every
run does what some sequence of undisturbed reconciles does. What holds for all runs is then proved about histories.
The methods of `InstanceReconciler` and `LifecycleReconciler` act on a `Cluster` that keeps its whole run of the protocol
as ghost state, and each of them only prolongs that run (`old(cluster.run) <= cluster.run`). What is proved of runs, and
of two moments of one run, therefore holds of the cluster across any calls (`ApiServer.Cluster.Since`).

## Where code and documentation differ

The model follows the code.

- `docs/kimo-design.md` draws Expiring as leading only to Expired. The instance controller may write Running again, from
  any Expiring state and in a run from the creation on (`Surprises.ExpiringMayRunAgain`, `Surprises.ExpiringThenRunning`).
  Expiring is final exactly if no write of the instance controller is accepted after it (`History.ExpiringEndsExactly`,
  `Safety.ExpiringLastsExactly`).
- The design lets the lifecycle controller handle TTL extensions. An extension changes the spec only
  (`Invariants.ExtendChangesOnlyTheSpec`), and it counts exactly if the instance had no dates yet when it was accepted and
  no later extension was accepted before it got them (`Extensions.ExtensionCountsExactly`); accepted later it leaves the
  expiry as it is (`Safety.DatesAreWriteOnce`, `Surprises.ExtensionTooLate`).
- The design announces every transition. With a backend, entering Pending and nothing else is silent
  (`Notifications.SilentExactly`), and a notification owed by a reconcile that stops is lost (`Safety.NotificationsInRun`). Notifications may overtake each other (`Surprises.CreatingHeardAfterRunning`);
  they are bound to keep the order of their writes exactly if no write that calls for a notification is accepted while
  another notification is still owed (`Ordering.DeliveryInOrderExactly`).
- Terminating is documented and never stored (`Safety.PhasesInRun`).
- The design reconciles periodically. An instance that is Expiring, looked at inside its grace window, is given no timer
  (`Timers.NoTimerExactlyInGraceWindow`). As a rule the wake-up that was asked for when Expiring was stored is still pending
  and ends it. The timers leave an instance behind exactly if that wake-up is gone, as after a restart, or never got into the
  queue because an earlier one was pending, as after a first look at an undated instance (`Timers.TimersExpireExactly`,
  `Timers.LookExpiresExactly`, `Timers.UnarmedMayBeStranded`).
- The comment on `consumePoW` says that a puzzle is removed on success; it is removed by any attempt
  (`PuzzleStore.Server.ConsumePoW`).
- The comment on `AllowRule` (`api/v1alpha1/networkfence_types.go:24`) says that a rule permits egress; it opens ingress only,
  and a fence whose allow list names no positive port and no block lets everything in (`NetworkPolicies.CompiledMeaning`,
  `Pipeline.TemplateMeaning`).
- Two different requests can be given the same instance name, and the second is then refused as existing
  (`Handlers.NameIsSharedExactly`).

## How a fence's rules combine

The documentation leaves open whether the entries of an allow list are read one by one. The code collects their ports and their
blocks separately, so two entries with a block and a port each also let each block in at the other's port
(`NetworkPolicies.TwoRulesCross`). The policy means what its rules mean one by one exactly if there is a rule, ports are
missing in all rules or in none, so are blocks, and every block is listed with every port
(`NetworkPolicies.ReadsRuleByRuleExactly`); for the fences that the instance controller builds this comes down to the
template's exposed ports (`Pipeline.TemplateReadsRuleByRule`).

## Model

| member | source | states |
|---|---|---|
| Safety.AcceptedWritesAreCurrent | internal/controller/challengeinstance_controller.go:262-269 | From state to state of every run the stored status changes by one accepted write at most, computed by its controller's code and past its controller's guards from exactly the status and spec stored just before, however stale reads and other writers interleave |
| Safety.RunRefinesHistory | internal/controller/lifecycle_controller.go:71-76 | In every state of every run the stored status is the end of a valid history: the accepted writes, each computed from the result of the one before |
| Invariants.StepKeepsWorkers | internal/controller/challengeinstance_controller.go:58-110 | Every step of the protocol keeps each in-flight reconcile's copy equal to what the code computes from the version it read, with the owned objects it has passed in existence |
| Invariants.StepKeepsHistory | internal/controller/challengeinstance_controller.go:262-269 | Every step keeps the accepted writes a valid history that ends in the stored status |
| Invariants.ExtendChangesOnlyTheSpec | internal/api/handlers.go:225-230 | An accepted extend request started from the current version and changes the TTL override; status, owned objects and notifications stay |
| Extensions.ExtensionCountsExactly | internal/api/handlers.go:225-230 | For an extension accepted in a run and a later dated state: the copy that the instance was dated from has the generation of the spec that the extension stored if and only if the instance was undated when it was accepted and no later extension was accepted before the dating write; then start and expiry lie the extension's duration apart, if its override is not empty |
| Extensions.DatedFromStoredSpec | internal/controller/challengeinstance_controller.go:196-213 | A dated instance was dated by exactly one step of its run, from the spec stored just then; it had no dates before and has had these since |
| Extensions.OnlyExtensionsChangeSpec | internal/api/handlers.go:225-230 | Whenever a step of a run changes the spec, it is an extend request submitted from the current version, and it changes the override only |
| Surprises.ExtensionTooLate | internal/api/handlers.go:225-230 | There is a run from the creation on in which an extension is accepted after the dating and the stored expiry is still that of the first duration |
| Safety.TerminalForever | internal/controller/challengeinstance_controller.go:69-71 | In every run, once Expired or Failed is stored the whole status never changes again |
| History.TerminalIsLast | internal/controller/challengeinstance_controller.go:112-114 | In a valid history no write is accepted after one that stored a terminal phase |
| Safety.DatesAreWriteOnce | internal/controller/challengeinstance_controller.go:196-213 | In every run StartedAt and ExpiresAt are stored together, never change afterwards, and differ by the TTL of the one write that set them, up to less than a second |
| History.DatedOnce | internal/controller/challengeinstance_controller.go:196-213 | A dated history has one write that set both dates, from the clock and from the override (or else template TTL) it saw; before it there were none, after it they are kept |
| History.DatesLast | internal/controller/challengeinstance_controller.go:197-199 | Dates once stored survive every later accepted write of either controller |
| History.StoredLifetime | internal/controller/challengeinstance_controller.go:208-211 | Dropping the fraction of a second costs the stored lifetime less than a second, and nothing exactly for whole seconds |
| Safety.NeverEarly | internal/controller/lifecycle_controller.go:57-68 | In every state of every run, Expired means the clock has reached ExpiresAt, Expiring that it has reached ExpiresAt minus the grace window |
| Safety.ExpiryIsWithinReach | internal/controller/lifecycle_controller.go:57-58 | In every state an expiry is at most one maximal Go duration ahead, so the remaining time never saturates upwards |
| Safety.PhasesInRun | api/v1alpha1/challengeinstance_types.go:28-37 | Terminating is never stored, and the phase is unset exactly until the first write |
| History.WhoWritesWhat | internal/controller/lifecycle_controller.go:60-68 | Exactly the lifecycle controller writes Expiring and Expired, always as a change; Creating, Running and Unhealthy come only from looking at pods |
| Safety.CounterInRun | internal/controller/challengeinstance_controller.go:232-245 | In every state the stored counter is the length of the current run of accepted unready observations, as an int32; Running goes with zero |
| History.ObserveMeaning | internal/controller/challengeinstance_controller.go:223-248 | For every list of pods, what determinePhase goes by: nothing listed; else the first pod's phase is Failed, with its reason; Running with a first Ready condition that is True; Running without one; or Pending, Succeeded or Unknown |
| History.WrapMeaning | internal/controller/challengeinstance_controller.go:241 | The stored counter is the int32 that agrees with the run modulo 2^32 |
| History.CounterCountsUnreadyRun | internal/controller/challengeinstance_controller.go:224-248 | For every valid history the counter equals the unready run modulo int32 wrap-around; observations without a running pod and lifecycle writes leave it alone |
| History.UnreadyRunIsACount | internal/controller/challengeinstance_controller.go:233-241 | The unready run is the number of accepted writes since the last ready one that saw a running, unready pod |
| History.UnhealthyExactlyAtThreshold | internal/controller/challengeinstance_controller.go:232-245 | A write stores Unhealthy if and only if it saw an unready pod and the run, it included, has reached the threshold; Running if and only if it saw a ready pod, then with counter zero |
| History.UnhealthyAfterThreshold | internal/controller/challengeinstance_controller.go:237-244 | Below the int32 limit a write stores Unhealthy exactly if the first pod it saw is Running without a first Ready condition that is True, and it is at least the threshold-th such write since the last ready one, the threshold being the template's, or 3 for 0 |
| History.RunningToUnhealthy | internal/controller/challengeinstance_controller.go:237-244 | Running turns Unhealthy in one write exactly if the pod is unready and the effective threshold is at most one |
| Safety.RunningToUnhealthyInRun | internal/controller/challengeinstance_controller.go:237-244 | No run steps from Running straight to Unhealthy unless the reconcile saw an unready pod and an effective threshold of at most one |
| History.WhyThisPhase | internal/controller/challengeinstance_controller.go:69-110 | For each phase, exactly which observations and instants make a write store it |
| History.PodReadyMeaning | internal/controller/challengeinstance_controller.go:251-258 | A pod is ready exactly if its first Ready condition is True |
| Safety.NotificationsInRun | internal/controller/challengeinstance_controller.go:271-283 | In every state: notifications sent, plus owed, plus lost, are one for each accepted write that changed the phase to one with an event; at most one ending is ever sent |
| Notifications.AcceptedEventIsDue | internal/controller/challengeinstance_controller.go:263-283 | The event a reconcile will send after an accepted update is the one that the real change of the stored phase calls for, for both controllers |
| Notifications.DueMeaning | internal/controller/challengeinstance_controller.go:271-301 | A change of phase calls for an event exactly if it does not lead to Unset, Pending or Terminating; the event is of the type of the new phase and carries the instance's name, its challenge, team and player, and the endpoint and reason of the new status |
| Notifications.SilentExactly | internal/controller/challengeinstance_controller.go:271-286 | An accepted write that changes the phase calls for no notification exactly if the new phase is Pending or there is no backend |
| Notifications.OneEndingDue | internal/controller/lifecycle_controller.go:60-63 | All the notifications an instance can give rise to contain at most one instance.expired or instance.failed, once |
| Safety.ActiveIsProvisioned | internal/controller/challengeinstance_controller.go:91-109 | Creating, Running, Unhealthy, Expiring and Expired carry an expiry; with an expiry, Deployment and NetworkFence exist, and the Service if the template seen then exposes a port, through every crash point |
| Safety.OwnedOnce | internal/controller/challengeinstance_controller.go:116-176 | Owned objects are created under the instance's name only, once, and are never altered by later reconciles |
| Safety.StepKeepsWorld | internal/controller/challengeinstance_controller.go:116-194 | Every stored Deployment, Service and NetworkFence is one that the instance controller builds |
| History.ExpiringEndsExactly | internal/controller/lifecycle_controller.go:60-68 | An accepted write to an Expiring instance stores Expired exactly if it is the lifecycle controller's; any write of the instance controller takes it out of Expiring to another phase |
| Safety.ExpiringLastsExactly | internal/controller/challengeinstance_controller.go:69-71 | From an Expiring state of a run on, the phase stays Expiring or Expired up to a later state if and only if every write accepted in between is the lifecycle controller's |
| Surprises.ExpiringMayRunAgain | internal/controller/challengeinstance_controller.go:69-71 | Every run that has come to Expiring can be continued, by an undisturbed reconcile that sees the instance's own pod ready, to Running |
| Surprises.ExpiringThenRunning | internal/controller/challengeinstance_controller.go:69-71 | For every time to live of a second or more there is a run from the creation on whose stored phases are Unset, Running, Expiring, Running, Expired |
| Ordering.DeliveryInOrderExactly | internal/controller/challengeinstance_controller.go:267-283 | For every run: whatever is owed at any of its moments can only be delivered in the order of the writes, if and only if no write that calls for a notification is accepted while another one is still owed |
| Ordering.QuietRunsDeliverInOrder | internal/controller/challengeinstance_controller.go:267-283 | In such a run a strictly increasing map takes each notification sent to the accepted write it is due for |
| Ordering.OwedTwiceMayBeInverted | internal/controller/challengeinstance_controller.go:267-283 | Wherever two workers owe notifications of different writes, sending the later write's first and the earlier's next is possible and leaves them out of order |
| Ordering.StepKeepsSources | internal/controller/lifecycle_controller.go:71-89 | Every step keeps each notification sent or owed tied to an accepted write of its own for which it is due |
| Ordering.SentTells | internal/controller/lifecycle_controller.go:77-86 | In every run, every notification sent names the instance, the challenge, team and player of the spec, and the endpoint, reason and phase that the write it announces stored |
| Surprises.CreatingHeardAfterRunning | internal/controller/challengeinstance_controller.go:267-283 | There is a run from the creation on in which Creating and then Running are stored, and the backend is notified of Running and then of Creating |
| InstanceReconciler.Reconcile | internal/controller/challengeinstance_controller.go:58-110 | One reconcile prolongs the cluster's run by protocol steps; it succeeds exactly if no call fails and the version read is current, with requeue after 10 s for an unready template and 15 s otherwise; what is stored (when Failed, Pending, Running, Unhealthy and Creating, with which reason, counter, dates and pod name) and what is announced is told from the templates, the pods and the object read; on an error nothing is announced, and owned objects are only added, all those called for on success |
| Reconciles.OutcomeFollows | internal/controller/challengeinstance_controller.go:73-110 | Failed is computed exactly if the template is gone, the time to live of an undated instance is no duration, or the instance's first pod has failed; Pending exactly for an unready template; Running and Unhealthy exactly for a first pod that is running and ready, or unready once too often; with the reason, counter, dates and pod name that go with it |
| Reconciles.GetsToWriteMeaning | internal/controller/challengeinstance_controller.go:73-107 | No call before the write fails exactly if templates can be read and, for a ready template, Deployment, Fence and, with an exposed port, Service are seen or can be created, and the pods can be listed unless the time to live is bad |
| Reconciles.ListedFirst | internal/controller/challengeinstance_controller.go:219-228 | The pod that decides is the first one in the instance's namespace that carries its label |
| InstanceReconciler.DateOnce | internal/controller/challengeinstance_controller.go:196-213 | The copy gets both dates or an error, and keeps dates it already has |
| InstanceReconciler.JudgePods | internal/controller/challengeinstance_controller.go:218-249 | Failed, Running and Unhealthy, and the counter, are given exactly in terms of the first pod's phase and conditions, the old counter and the threshold, 3 for 0 |
| InstanceReconciler.Transition | internal/controller/challengeinstance_controller.go:262-286 | Stores the phase and reason only over the version read, unless the update is refused, and notifies once, after an update reported as accepted, exactly on a change to a phase with an event; the event's fields are those of the instance and its status |
| InstanceReconciler.Ensure | internal/controller/challengeinstance_controller.go:121-144 | Succeeds exactly if the object is seen, or is missing and can be created; an existing object is never changed, a missing one is created unless the server refuses |
| InstanceReconciler.Provision | internal/controller/challengeinstance_controller.go:91-101 | Deployment, Service and NetworkFence are ensured, all of them on success, exactly if each of the three calls would succeed on its own; objects are only added, each as the template calls for it |
| InstanceReconciler.EnsureService | internal/controller/challengeinstance_controller.go:131-147 | If the template exposes a port its Service is ensured, and otherwise nothing is asked for or created; the pod name is set exactly on success |
| Workload.ExposedInOrder | internal/controller/challengeinstance_controller.go:390-396 | The exposed ports are those of the template marked so, each once and in their order |
| Workload.ServiceMeaning | internal/controller/challengeinstance_controller.go:390-407 | The Service selects the instance's label and has, for each exposed port, one port of the same name, number and target |
| Workload.FenceMeaning | internal/controller/challengeinstance_controller.go:178-194 | The fence refers to the instance, has one rule without a block for each exposed port, denies kimo-system and allows no egress |
| Workload.DeploymentMeaning | internal/controller/challengeinstance_controller.go:303-310 | Pods and selector carry exactly the challenge, team and instance labels with the template's name, the team and the instance's name |
| InstanceReconciler.BuildServicePorts | internal/controller/challengeinstance_controller.go:390-407 | The loop yields one service port per exposed port, in order |
| InstanceReconciler.BuildAllowRules | internal/controller/challengeinstance_controller.go:178-184 | The loop yields one allow rule per exposed port, in order |
| LifecycleReconciler.Reconcile | internal/controller/lifecycle_controller.go:42-69 | One reconcile prolongs the cluster's run by protocol steps and does what the switch on the remaining time says: waits, or submits Expiring or Expired over the version read; versions, notifications and reply are given for refused, stale and lost updates as well |
| History.LifecycleMeaning | internal/controller/lifecycle_controller.go:53-68 | The lifecycle rules in numbers: 30 s for an undated or ended instance, Expired and 60 s when time is up, Expiring and the time left inside the last 60 s, no timer for an Expiring one there, and a wake-up 60 s before the end otherwise |
| LifecycleReconciler.NotifyAndSetPhase | internal/controller/lifecycle_controller.go:71-89 | The phase is stored exactly over the current version unless refused, and announced exactly if the update is reported as accepted, with the instance's name, challenge, team, player, endpoint and the new reason |
| LifecycleReconciler.HandleExtend | internal/api/handlers.go:202-231 | The reply for every case; a bad duration changes nothing, the status never changes, and an update accepted over the current version changes the override and nothing else |
| ApiServer.Cluster.UpdateStatus | internal/controller/challengeinstance_controller.go:267-269 | A status update succeeds only for the current version; the spec it carries is ignored; no change, no new version |
| ApiServer.Cluster.Since | internal/controller/challengeinstance_controller.go:58-110 | Whatever the controllers' methods have done to a cluster since an earlier moment: a terminal status and both dates stay as they were, owned objects stay, versions and notifications are only added to |
| Timers.TimerHitsTheNextChange | internal/controller/lifecycle_controller.go:57-68 | Each timer of a live instance is set for the very first instant at which another look would change something, which is 60 s before the expiry or the expiry itself |
| Timers.TimersExpire | internal/controller/lifecycle_controller.go:57-68 | With a pending wake-up that does not find the dead end, timers alone store Expired within three reconciles, never early, and at most one wake-up later than the pending wake-up or ExpiresAt |
| Timers.TimersExpireExactly | internal/controller/lifecycle_controller.go:64-68 | Given the pending wake-up, timers alone store Expired if and only if there is one and, when it comes, the instance is not Expiring, or its time is up, or a further wake-up oversleeps the whole grace window |
| Timers.LookExpiresExactly | internal/controller/lifecycle_controller.go:57-68 | A reconcile that some event or a restart gives rise to leads to Expired by the timers exactly outside the grace window, or in it: without a pending wake-up, if it is the one to store Expiring; with one, if that wake-up does not come before the end |
| Timers.LookKeepsArmed | internal/controller/lifecycle_controller.go:57-68 | Armed (a wake-up pending at the end or later, or before the grace window of an instance not yet Expiring) is kept by every reconcile until Expired, at whatever time it runs, and established by every one that finds no wake-up pending and the instance not Expiring |
| Timers.ObservationKeepsArmed | internal/controller/challengeinstance_controller.go:262-269 | No accepted write of the instance controller to a dated instance undoes Armed unless it stores Failed |
| Timers.ArmedExpires | internal/controller/lifecycle_controller.go:57-68 | An armed instance that is left to the timers expires within the bounds of TimersExpire |
| Timers.UnarmedMayBeStranded | internal/controller/lifecycle_controller.go:57-68 | A live instance that is not armed is left unexpired by punctual timers, as it is or after one more reconcile at an instant that the lemma names |
| Timers.NoTimerExactlyInGraceWindow | internal/controller/lifecycle_controller.go:66-67 | A reconcile sets no timer exactly if it finds the instance Expiring with 0 < remaining <= 60 s |
| Timers.TimersInRun | internal/controller/lifecycle_controller.go:57-68 | From every state of every run and every wake-up still to come: expiry by timers alone exactly if there is one and the instance is not Expiring, or over when it wakes up, with the bounds |
| Timers.ExpireByTimers | internal/controller/lifecycle_controller.go:42-69 | From wherever a cluster's run stands, with any wake-up still to come, the lifecycle controller run on the stored object whenever it is woken stores Expired exactly if there is such a wake-up and the instance is not Expiring, or over when it wakes up: within three reconciles, never early, at most one wake-up late |
| Timers.FollowTimers | internal/controller/lifecycle_controller.go:42-69 | That loop of waits and reconciles, starting with the pending wake-up, prolongs the run and ends as the recursion on statuses says, with Expired stored exactly if it says so |
| Timers.LookArmed | internal/controller/lifecycle_controller.go:42-69 | One reconcile of the stored object, whatever gave rise to it, keeps an instance armed until it is Expired, and arms one that is not Expiring when no wake-up is pending |
| ChallengeSets.Decide | internal/controller/challengeset_controller.go:58-82 | The decision is right now and stays right until the requested wake-up, which is always in the future |
| ChallengeSets.DecideMeaning | internal/controller/challengeset_controller.go:58-82 | The message for each case, and the wake-up: the start or the end of the window, or 30 s |
| ChallengeSets.ChallengeSet.Reconcile | internal/controller/challengeset_controller.go:47-92 | The decision for the time is stored exactly over the current version unless the update is refused, else the status stays; the reply is the delay, an error, or nothing to do for a set that is gone |
| ChallengeSets.FlagIsRecent | internal/controller/challengeset_controller.go:71-82 | With successful reconciles late by at most a slack, the stored flag at every instant is what the window called for no longer ago than that slack |
| ChallengeSets.FlagIsRight | internal/controller/challengeset_controller.go:58-92 | With wake-ups on time, Active equals start <= t < end at every instant, for inverted and empty windows too |
| ChallengeSets.KeepFlag | internal/controller/challengeset_controller.go:47-92 | The loop of reconciles and waits on the stored object leaves in Active what that recursion says, and so what the window called for no longer ago than a wake-up may be late |
| ProofOfWork.CountLeadingZeroBits | internal/api/pow.go:49-65 | The nested loops compute the number of leading zero bits |
| ProofOfWork.CountIsExact | internal/api/pow.go:49-65 | For every byte string the count k satisfies value < 2^(8n-k), and value >= 2^(8n-k-1) unless k = 8n |
| ProofOfWork.CountIsUnique | internal/api/pow.go:49-65 | No other k satisfies that |
| ProofOfWork.AcceptanceMeaning | internal/api/pow.go:43-47 | A nonce is accepted exactly if the digest is below 2^(256-d) for 0 <= d <= 256; always for d <= 0, never for d > 256 |
| ProofOfWork.SolutionsAreRare | internal/api/pow.go:49-65 | Of the 2^(8n) n-byte strings exactly 2^(8n-d) have at least d leading zero bits |
| ProofOfWork.SolvePoW | internal/api/pow.go:68-75 | The search returns the least accepted nonce below 2^30, or reports that there is none |
| PuzzleStore.Server.ConsumePoW | internal/api/handlers.go:266-280 | An attempt succeeds exactly if the puzzle is stored, unexpired and solved, for the challenge the caller sent, at its own difficulty; any attempt spends it, no other puzzle is touched, and the steps taken prolong the server's run |
| PuzzleStore.Server.StorePoW | internal/api/handlers.go:260-264 | The puzzle is stored under its challenge string, in place of an earlier one, as the next issue of the server's run |
| PuzzleStore.Server.IssuePoW | internal/api/handlers.go:255-256 | The puzzle is good for five minutes from now, is stored under its challenge, and is the next issue of the server's run |
| PuzzleStore.Server.GatedCreations | internal/api/handlers.go:93-98 | In whatever order the server's methods were called, every gated creation recorded in its run goes with an issued puzzle of its own that was solved in time |
| PuzzleStore.StepInv | internal/api/handlers.go:266-280 | Every interleaved step keeps: a puzzle taken is out of the store and held by one request, admissions and creations are of distinct issued puzzles |
| PuzzleStore.CreationsUseDistinctPuzzles | internal/api/handlers.go:93-98 | In every run each gated creation has an issued puzzle of its own, unexpired when checked and solved at its recorded difficulty |
| PuzzleStore.LookupsNeverExceedIssues | internal/api/handlers.go:260-272 | In every run, for each challenge string, the lookups that obtain a puzzle never outnumber the puzzles stored for it |
| NetworkPolicies.BuildNetworkPolicy | internal/controller/networkfence_controller.go:92-131 | The append loops build the compiled policy |
| NetworkPolicies.CompiledMeaning | internal/controller/networkfence_controller.go:92-131 | For every fence: which source, transport and port the policy admits, and that egress is closed exactly if it is not allowed and something is denied |
| NetworkPolicies.ReadsRuleByRuleExactly | internal/controller/networkfence_controller.go:95-112 | For every fence: its policy admits exactly what some rule admits, for all blocks, sources, transports and ports, if and only if there is a rule, ports are missing in all rules or in none, so are blocks, and every block is listed with every port |
| NetworkPolicies.TwoRulesCross | internal/controller/networkfence_controller.go:95-112 | With one rule for a block and a port and one for another block and port, an address of the first block only gets at the second port, which no rule admits |
| NetworkPolicies.SuchAFence | internal/controller/networkfence_controller.go:95-112 | A concrete fence whose policy is not what its two rules say one by one |
| NetworkPolicies.PolicyStore.Reconcile | internal/controller/networkfence_controller.go:50-90 | For a fence that is there, the policy is created or overwritten and other policies stay, and the fence is marked applied exactly when that was reported done; a fence that is gone or unreadable changes nothing |
| NetworkPolicies.PolicyNames | internal/controller/networkfence_controller.go:123 | The policies of two fences have the same name exactly if the fences are the same instance's |
| NetworkPolicies.ReconcileAll | internal/controller/networkfence_controller.go:50-90 | After any sequence of undisturbed reconciles every instance is fenced by its own last fence: a stored policy selects exactly its pods and admits what that fence says; policies of other names stay |
| Pipeline.TemplateMeaning | internal/controller/challengeinstance_controller.go:178-194 | For every template: no egress; with a positive exposed port, ingress on exactly the positive TCP ports that the Service serves; without one, all ingress |
| Pipeline.TemplateReadsRuleByRule | internal/controller/challengeinstance_controller.go:178-194 | The fence of a template is read rule by rule exactly if a port is exposed and the exposed ports are all positive or none is |
| Pipeline.ServicePortsExpose | internal/controller/challengeinstance_controller.go:390-407 | The Service serves exactly the exposed ports, and there is none exactly if nothing is exposed |
| Pipeline.LabelsAgree | internal/controller/challengeinstance_controller.go:303-310 | An instance's pods match its Deployment, and match a Service, policy or pod listing exactly if these are the same instance's |
| Pipeline.FencedInRun | internal/controller/challengeinstance_controller.go:91-101 | In every run an instance with an expiry has stored Deployment and NetworkFence; the policy the fence compiles to selects that Deployment's pods and lets nothing out |
| PodWatch.ChangeWakesInstance | internal/controller/challengeinstance_controller.go:412-436 | Any pod addition, update or deletion that makes some conclusion of determinePhase about an instance possible or impossible enqueues that instance, in whatever order its pods may be listed before and after |
| PodWatch.WokenExactly | internal/controller/challengeinstance_controller.go:430-436 | A pod change enqueues exactly the instances that the old or the new pod belongs to |
| PodWatch.PossibleVerdicts | internal/controller/challengeinstance_controller.go:218-249 | The conclusions reckoned with are exactly those of determinePhase on the pods it lists, for one order of all pods or another |
| InstanceReconciler.VerdictIsPossible | internal/controller/challengeinstance_controller.go:218-249 | What a reconcile concludes from the pods it lists is one of these conclusions |
| Handlers.Api.HandleCreateInstance | internal/api/handlers.go:68-124 | An instance is created exactly under the listed conditions, never replaces one, and is there even if the reply to its creation is lost; a puzzle is spent exactly when the gate is reached, 428 is the answer exactly if it is not passed, and the creation is recorded in the puzzle server's run exactly if it went through the gate |
| Handlers.NameReadsBack | internal/api/handlers.go:126-132 | From the name of an instance whose template, team and player have no hyphens these are read off in that order, splitting at the hyphens |
| Handlers.PlayerExtendsTeam | internal/api/handlers.go:126-132 | A player's instance is named like the team's, followed by a hyphen and the player |
| Handlers.NameIsSharedExactly | internal/api/handlers.go:126-132 | A request's instance name is also another request's exactly if it names a player or has a hyphen inside its template or team |
| Handlers.FilterInPlace | internal/api/handlers.go:154-163 | The filter that writes into the array it reads returns the filter of the original list; the rest of the array is as before |
| Handlers.InPhaseIsFilter | internal/api/handlers.go:157-161 | That filter keeps exactly the items in the phase, each once, in their order |

## Left out

- HTTP routing, JSON, authentication, webhook delivery and the CTFd and generic clients; a Notify call is an entry in a log, and its result is ignored as in the code.
- SHA-256, random challenges, time.ParseDuration and RFC 3339 parsing: an arbitrary function of challenge and nonce, arbitrary strings, an arbitrary parser, and parsed-or-error values.
- Deletion, and recreation under the same name: all runs are of one incarnation of one instance.
- SetControllerReference, which fails only for objects that already have another controller.
- The template controller, readiness probes, container details, deep copies, manager wiring and manifests: single-branch facts. Template readiness is an arbitrary bit at every look.
- Capacity limits and Terminating: documented, not implemented.
- Interleaved reconciles of one NetworkFence or one ChallengeSet: these are modelled one at a time, with stale reads and refused or unanswered updates as inputs.
- The content of NetworkPolicy metadata: only its name and spec.
- Reads of templates and pods that fail: in the protocol they are a reconcile that stops; the methods return the error.
- A template or pod read that is itself stale: templates and pods are arbitrary at every look, which covers it.
- client-go's work queue is not part of this model, save that it keeps one wake-up for each object, the earliest asked for, and that reconciles which ask for nothing or have another cause leave it; retries after errors, the periodic resync and restarts enter as the wake-up that is pending.
- Timers.TimersExpire: assumes that no other writer interferes and no call fails from then on; what other reconciles do to the pending wake-up is the subject of Timers.LookKeepsArmed and Timers.LookExpiresExactly.
- Clocks that go back: the protocol's clock and the puzzle server's do not.
