/** Runs, from the creation of an instance on, that show what the protocol does not guarantee. */
module Surprises {
  import opened Common
  import opened Time
  import opened ApiTypes
  import opened Instances
  import opened Workload
  import opened History
  import opened Protocol
  import opened Safety
  import opened Ordering

  // ----- Undisturbed reconciles

  /** A ready template of the right name that exposes no port. */
  function Plain(spec: Spec, ttl: string): Template {
    Template(spec.templateRef, true, ttl, [], 0)
  }

  /** The pod of the instance's Deployment, up and ready. */
  function ReadyPod(c: Config, spec: Spec, tmpl: Template): Pod {
    Pod("pod", c.namespace, PodLabels(c.name, spec.team, tmpl), PodRunning, "",
        [Condition(READY_CONDITION, ConditionTrue)])
  }

  function PodsOf(c: Config, spec: Spec, tmpl: Template, ready: bool): (pods: seq<Pod>)
    ensures forall pod <- pods :: BelongsTo(pod, c.namespace, c.name)
  {
    assert Selects(map[LABEL_INSTANCE := c.name], PodLabels(c.name, spec.team, tmpl));
    if ready then [ReadyPod(c, spec, tmpl)] else []
  }

  /** What an undisturbed reconcile of the current version leaves behind, up to but not including its notification. */
  ghost predicate Wrote(c: Config, s: State, t: State, outcome: Status, cause: Cause)
    requires s.store != []
  {
    var was := Current(s);
    var due := Due(c, was.spec, was.status, outcome);
    && t.clock == s.clock && t.sent == s.sent && t.sources == s.sources
    && t.store == (if Persisted(outcome) == was.status then s.store
                   else s.store + [Instance(was.spec, Persisted(outcome))])
    && t.log == s.log + [Write(was.spec, was.status, Persisted(outcome), cause, s.clock)]
    && t.workers == s.workers + [if c.backend && due.Some? then Owing(due.value, |s.log|) else Done]
  }

  /** The run can be prolonged to `longer`, which ends in t. */
  ghost predicate Leads(c: Config, run: seq<State>, longer: seq<State>, t: State) {
    Run(c, longer) && run <= longer && t == Last(longer)
  }

  lemma Act(c: Config, run: seq<State>, longer: seq<State>, t: State, step: Step) returns (next: seq<State>, u: State)
    requires Leads(c, run, longer, t) && Enabled(c, t, step)
    ensures Leads(c, run, next, u) && u == Apply(c, t, step)
  {
    next := Continue(c, longer, step);
    u := Apply(c, t, step);
  }

  ghost predicate Usable(c: Config, s: State, tmpl: Template) {
    && s.store != [] && !Terminal(Current(s).status.phase)
    && tmpl == Plain(Current(s).spec, tmpl.ttl)
    && (Current(s).status.expiresAt.Some? || c.parse(TimeToLive(Current(s).spec, tmpl)).Some?)
  }

  function CurrentCopy(s: State): Copy
    requires s.store != []
  {
    Copy(|s.store| - 1, Current(s).spec, Current(s).status)
  }

  lemma PassToDeployment(c: Config, run: seq<State>, s: State, tmpl: Template) returns (longer: seq<State>, t: State)
    requires Leads(c, run, run, s) && Usable(c, s, tmpl)
    ensures Leads(c, run, longer, t)
    ensures t == s.(workers := s.workers + [Deployed(CurrentCopy(s), tmpl)], world := t.world)
  {
    hide Leads;
    var n := |s.workers|;
    longer, t := Act(c, run, run, s, StartInstance(|s.store| - 1));
    longer, t := Act(c, run, longer, t, FindTemplate(n, tmpl));
    longer, t := Act(c, run, longer, t, if DeploymentKey(c) in s.world then FindDeployment(n) else CreateDeployment(n));
    assert t.workers == s.workers + [t.workers[n]];
  }

  lemma PassToFence(c: Config, run: seq<State>, s: State, tmpl: Template) returns (longer: seq<State>, t: State)
    requires Leads(c, run, run, s) && Usable(c, s, tmpl)
    ensures Leads(c, run, longer, t)
    ensures t == s.(workers := s.workers + [Fenced(Named(c, CurrentCopy(s)), tmpl)], world := t.world)
  {
    hide Leads;
    var n := |s.workers|;
    longer, t := PassToDeployment(c, run, s, tmpl);
    longer, t := Act(c, run, longer, t, SkipService(n));
    longer, t := Act(c, run, longer, t, if FenceKey(c) in t.world then FindFence(n) else CreateFence(n));
    assert t.workers == s.workers + [t.workers[n]];
  }

  /** A worker has computed the outcome from the current version, and is about to submit it. */
  ghost predicate AtUpdate(c: Config, s: State, t: State, outcome: Status, cause: Cause)
    requires s.store != []
  {
    var due := Due(c, Current(s).spec, Current(s).status, outcome);
    t == s.(workers := s.workers + [StatusUpdate(CurrentCopy(s).(st := outcome), cause,
                                                if c.backend then due else None)],
            world := t.world)
  }

  lemma SubmitWrites(c: Config, run: seq<State>, longer: seq<State>, s: State, t: State, outcome: Status, cause: Cause)
    returns (next: seq<State>, u: State)
    requires s.store != [] && Leads(c, run, longer, t) && AtUpdate(c, s, t, outcome, cause)
    ensures Leads(c, run, next, u) && Wrote(c, s, u, outcome, cause)
  {
    hide Leads;
    hide Due;
    var n := |s.workers|;
    next, u := Act(c, run, longer, t, Submit(n));
    assert u.workers == s.workers + [u.workers[n]];
  }

  lemma PassToUpdate(c: Config, run: seq<State>, s: State, tmpl: Template, pods: seq<Pod>)
    returns (longer: seq<State>, t: State)
    requires Leads(c, run, run, s) && Usable(c, s, tmpl)
    requires forall pod <- pods :: BelongsTo(pod, c.namespace, c.name)
    ensures Leads(c, run, longer, t)
    ensures var seen := Pods(tmpl, s.clock, pods);
            AtUpdate(c, s, t, InstanceOutcome(c, Current(s).spec, Current(s).status, seen), Observed(seen))
  {
    hide Leads;
    var n := |s.workers|;
    longer, t := PassToFence(c, run, s, tmpl);
    longer, t := Act(c, run, longer, t, DateInstance(n));
    longer, t := Act(c, run, longer, t, ListPods(n, pods));
    assert t.workers == s.workers + [t.workers[n]];
  }

  /** An instance reconcile that nothing disturbs, and that sees no pod or a ready one. */
  lemma Pass(c: Config, run: seq<State>, s: State, tmpl: Template, ready: bool) returns (longer: seq<State>, t: State)
    requires Leads(c, run, run, s) && Usable(c, s, tmpl)
    ensures Leads(c, run, longer, t)
    ensures var seen := Pods(tmpl, s.clock, PodsOf(c, Current(s).spec, tmpl, ready));
            Wrote(c, s, t, InstanceOutcome(c, Current(s).spec, Current(s).status, seen), Observed(seen))
  {
    hide Leads;
    hide InstanceOutcome;
    var seen := Pods(tmpl, s.clock, PodsOf(c, Current(s).spec, tmpl, ready));
    longer, t := PassToUpdate(c, run, s, tmpl, seen.pods);
    longer, t := SubmitWrites(c, run, longer, s, t,
                              InstanceOutcome(c, Current(s).spec, Current(s).status, seen), Observed(seen));
  }

  /** A lifecycle reconcile that nothing disturbs. */
  lemma LifecyclePass(c: Config, run: seq<State>, s: State) returns (longer: seq<State>, t: State)
    requires Leads(c, run, run, s) && s.store != [] && Lifecycle(Current(s).status, s.clock).Move?
    ensures Leads(c, run, longer, t)
    ensures Wrote(c, s, t, LifecycleOutcome(Current(s).status, s.clock), Elapsed(s.clock))
  {
    hide Leads;
    var n := |s.workers|;
    longer, t := Act(c, run, run, s, StartLifecycle(|s.store| - 1));
    longer, t := Act(c, run, longer, t, CheckExpiry(n));
    assert t.workers == s.workers + [t.workers[n]];
    longer, t := SubmitWrites(c, run, longer, s, t, LifecycleOutcome(Current(s).status, s.clock), Elapsed(s.clock));
  }

  // ----- Expiring is not the beginning of the end

  function Phases(store: seq<Instance>): seq<Phase> {
    seq(|store|, i requires 0 <= i < |store| => store[i].status.phase)
  }

  lemma ReadyPodMeansRunning(c: Config, spec: Spec, st: Status, tmpl: Template, now: int)
    ensures var outcome := InstanceOutcome(c, spec, st, Pods(tmpl, now, PodsOf(c, spec, tmpl, true)));
            st.expiresAt.Some? || c.parse(TimeToLive(spec, tmpl)).Some? ==>
              && outcome.phase == Running
              && (st.expiresAt.Some? ==> outcome.expiresAt == st.expiresAt)
              && (st.expiresAt.None? ==> outcome.expiresAt == Some(now + c.parse(TimeToLive(spec, tmpl)).value))
  {}

  /** In any run that has come to Expiring, an instance reconcile that sees a ready pod stores Running. */
  lemma ExpiringMayRunAgain(c: Config, run: seq<State>, ttl: string) returns (longer: seq<State>)
    requires Run(c, run) && Last(run).store != [] && Current(Last(run)).status.phase == Expiring
    ensures Run(c, longer) && run <= longer
    ensures Last(longer).store != [] && Current(Last(longer)).status.phase == Running
  {
    NeverEarly(c, run, |run| - 1);
    var s := Last(run);
    var tmpl := Plain(Current(s).spec, ttl);
    ReadyPodMeansRunning(c, Current(s).spec, Current(s).status, tmpl, s.clock);
    var t: State;
    longer, t := Pass(c, run, s, tmpl, true);
  }

  lemma Birth(c: Config, spec: Spec, clock: int) returns (run: seq<State>, s: State)
    ensures Leads(c, run, run, s) && |run| == 1
    ensures s == State(clock, [Instance(spec, EMPTY_STATUS)], map[], [], [], [], [], multiset{})
  {
    s := State(clock, [Instance(spec, EMPTY_STATUS)], map[], [], [], [], [], multiset{});
    run := [s];
  }

  /** The run has stored these phases, and the instance has this expiry. */
  ghost predicate Stage(c: Config, run: seq<State>, s: State, spec: Spec, phases: seq<Phase>, expiry: int) {
    && Leads(c, run, run, s)
    && s.store != [] && Current(s).spec == spec
    && Phases(s.store) == phases && Current(s).status.expiresAt == Some(expiry)
  }

  lemma NextStage(c: Config, run: seq<State>, s: State, spec: Spec, longer: seq<State>, t: State, outcome: Status,
                  cause: Cause, expiry: int)
    requires s.store != [] && Current(s).spec == spec
    requires Leads(c, run, longer, t) && Wrote(c, s, t, outcome, cause)
    requires outcome.phase != Current(s).status.phase && outcome.expiresAt == Some(expiry)
    ensures Stage(c, longer, t, spec, Phases(s.store) + [outcome.phase], Truncated(expiry))
    ensures Current(t).status.phase == outcome.phase
  {}

  lemma StageRunning(c: Config, run: seq<State>, s: State, spec: Spec, phases: seq<Phase>, expiry: int, ttl: string)
    returns (longer: seq<State>, t: State)
    requires Stage(c, run, s, spec, phases, expiry) && Truncated(expiry) == expiry
    requires Current(s).status.phase !in {Running, Expired, Failed}
    ensures Stage(c, longer, t, spec, phases + [Running], expiry) && run <= longer && t.clock == s.clock
    ensures Current(t).status.phase == Running
  {
    var tmpl := Plain(spec, ttl);
    longer, t := Pass(c, run, s, tmpl, true);
    ReadyPodMeansRunning(c, spec, Current(s).status, tmpl, s.clock);
    var seen := Pods(tmpl, s.clock, PodsOf(c, spec, tmpl, true));
    NextStage(c, run, s, spec, longer, t, InstanceOutcome(c, spec, Current(s).status, seen), Observed(seen), expiry);
  }

  /** Time passes until `left` remains, and the lifecycle controller looks. */
  lemma StageLate(c: Config, run: seq<State>, s: State, spec: Spec, phases: seq<Phase>, expiry: int, left: nat)
    returns (longer: seq<State>, t: State)
    requires Stage(c, run, s, spec, phases, expiry) && Truncated(expiry) == expiry
    requires Current(s).status.phase == Running && s.clock <= expiry - left && left <= EXPIRING_GRACE_WINDOW
    ensures Stage(c, longer, t, spec, phases + [if left == 0 then Expired else Expiring], expiry)
    ensures run <= longer && t.clock == expiry - left
            && Current(t).status.phase == if left == 0 then Expired else Expiring
  {
    var u: State;
    longer, u := Act(c, run, run, s, Tick(expiry - left - s.clock));
    var ticked := longer;
    longer, t := LifecyclePass(c, ticked, u);
    NextStage(c, ticked, u, spec, longer, t, LifecycleOutcome(Current(u).status, u.clock), Elapsed(u.clock), expiry);
  }

  /** The first reconcile already finds a ready pod. */
  lemma StageFirst(c: Config, spec: Spec, clock: int, ttl: string, d: Duration) returns (run: seq<State>, t: State)
    requires c.parse(TimeToLive(spec, Plain(spec, ttl))) == Some(d)
    ensures Stage(c, run, t, spec, [Unset, Running], Truncated(clock + d)) && t.clock == clock
    ensures Current(t).status.phase == Running
    ensures run[0].store == [Instance(spec, EMPTY_STATUS)] && run[0].clock == clock
  {
    var tmpl := Plain(spec, ttl);
    var born, s := Birth(c, spec, clock);
    assert Phases(s.store) == [Unset];
    run, t := Pass(c, born, s, tmpl, true);
    ReadyPodMeansRunning(c, spec, EMPTY_STATUS, tmpl, clock);
    var seen := Pods(tmpl, clock, PodsOf(c, spec, tmpl, true));
    NextStage(c, born, s, spec, run, t, InstanceOutcome(c, spec, EMPTY_STATUS, seen), Observed(seen), clock + d);
  }

  /**
   From its creation on, an instance with a time to live of a second or more may be stored as Running, as Expiring,
   as Running again, and as Expired.
   */
  lemma ExpiringThenRunning(c: Config, spec: Spec, clock: int, ttl: string) returns (run: seq<State>)
    requires var d := c.parse(TimeToLive(spec, Plain(spec, ttl))); d.Some? && d.value >= SECOND
    ensures Run(c, run) && run[0].store == [Instance(spec, EMPTY_STATUS)] && run[0].clock == clock
    ensures Phases(Last(run).store) == [Unset, Running, Expiring, Running, Expired]
  {
    var d := c.parse(TimeToLive(spec, Plain(spec, ttl))).value;
    var expiry := Truncated(clock + d);
    TruncatedTwice(clock + d);
    var first, s := StageFirst(c, spec, clock, ttl, d);
    var second, t := StageLate(c, first, s, spec, [Unset, Running], expiry, 1);
    var third, u := StageRunning(c, second, t, spec, [Unset, Running, Expiring], expiry, ttl);
    var v: State;
    run, v := StageLate(c, third, u, spec, [Unset, Running, Expiring, Running], expiry, 0);
  }

  // ----- An extension that comes too late

  /**
   From its creation on, an instance may be dated, and then have an extension accepted that leaves the stored expiry
   as it was.
   */
  lemma ExtensionTooLate(c: Config, spec: Spec, clock: int, ttl: string, longerTtl: string) returns (run: seq<State>)
    requires c.parse(TimeToLive(spec, Plain(spec, ttl))).Some? && c.parse(longerTtl).Some?
    ensures Run(c, run) && run[0].store == [Instance(spec, EMPTY_STATUS)] && run[0].clock == clock
    ensures Last(run).store != []
    ensures var now := Current(Last(run));
            && now.spec == spec.(ttlOverride := longerTtl)
            && now.status.expiresAt == Some(Truncated(clock + c.parse(TimeToLive(spec, Plain(spec, ttl))).value))
  {
    var first, s := StageFirst(c, spec, clock, ttl, c.parse(TimeToLive(spec, Plain(spec, ttl))).value);
    hide Leads;
    var n := |s.workers|;
    var t: State;
    run, t := Act(c, first, first, s, StartExtend(|s.store| - 1, longerTtl));
    run, t := Act(c, first, run, t, Submit(n));
  }

  // ----- Notifications out of order

  /** The changes of a first reconcile that sees no pod, and of a later one that sees it ready. */
  lemma CreatingThenRunning(c: Config, spec: Spec, tmpl: Template, now: int)
    requires c.parse(TimeToLive(spec, tmpl)).Some?
    ensures var creating := InstanceOutcome(c, spec, EMPTY_STATUS, Pods(tmpl, now, PodsOf(c, spec, tmpl, false)));
            var running := InstanceOutcome(c, spec, Persisted(creating), Pods(tmpl, now, PodsOf(c, spec, tmpl, true)));
            && creating.phase == Creating && Persisted(creating).expiresAt.Some? && running.phase == Running
            && Due(c, spec, EMPTY_STATUS, creating) == Some(MakeEvent(c, spec, creating, EventCreating))
            && Due(c, spec, Persisted(creating), running) == Some(MakeEvent(c, spec, running, EventRunning))
  {}

  /** Two reconciles, one after the other, have their writes accepted before either has sent its notification. */
  lemma TwoOwed(c: Config, spec: Spec, clock: int, ttl: string) returns (run: seq<State>, t: State)
    requires c.backend && c.parse(TimeToLive(spec, Plain(spec, ttl))).Some?
    ensures Leads(c, run, run, t) && run[0].store == [Instance(spec, EMPTY_STATUS)] && run[0].clock == clock
    ensures t.store != [] && t.sent == [] && t.sources == [] && |t.log| == 2 && |t.workers| == 2
    ensures t.log[0].after.phase == Creating && t.log[1].after.phase == Running
    ensures t.workers[0].Owing? && t.workers[0].write == 0 && t.workers[0].due.kind == EventCreating
    ensures t.workers[1].Owing? && t.workers[1].write == 1 && t.workers[1].due.kind == EventRunning
  {
    var tmpl := Plain(spec, ttl);
    var born, s := Birth(c, spec, clock);
    CreatingThenRunning(c, spec, tmpl, clock);
    hide InstanceOutcome;
    hide Due;
    var first, u := Pass(c, born, s, tmpl, false);
    run, t := Pass(c, first, u, tmpl, true);
  }

  /**
   From its creation on, an instance may have Creating and then Running stored, while the backend hears of
   Running first.
   */
  lemma CreatingHeardAfterRunning(c: Config, spec: Spec, clock: int, ttl: string) returns (run: seq<State>)
    requires c.backend && c.parse(TimeToLive(spec, Plain(spec, ttl))).Some?
    ensures Run(c, run) && run[0].store == [Instance(spec, EMPTY_STATUS)] && run[0].clock == clock
    ensures var s := Last(run);
            && |s.log| == 2 && s.log[0].after.phase == Creating && s.log[1].after.phase == Running
            && |s.sent| == 2 && s.sent[0].kind == EventRunning && s.sent[1].kind == EventCreating
            && s.sources == [1, 0] && !InOrder(s)
  {
    var owed, s := TwoOwed(c, spec, clock, ttl);
    hide Leads;
    var t: State;
    run, t := Act(c, owed, owed, s, Notify(1));
    run, t := Act(c, owed, run, t, Notify(0));
    assert t.sources[0] == 1 && t.sources[1] == 0;
  }
}
