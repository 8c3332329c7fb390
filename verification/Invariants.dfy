/** What every step of the protocol keeps, however the reconciles interleave. */
module Invariants {
  import opened Common
  import opened ApiTypes
  import opened Instances
  import opened Workload
  import opened History
  import opened Protocol

  /** The objects that must exist before a reconcile goes on to look at the pods. */
  ghost predicate Provisioned(c: Config, world: map<Key, Owned>, tmpl: Template) {
    && DeploymentKey(c) in world
    && FenceKey(c) in world
    && (Exposed(tmpl.ports) != [] ==> ServiceKey(c) in world)
  }

  ghost predicate CopyOf(store: seq<Instance>, w: Copy) {
    w.base < |store| && w.spec == store[w.base].spec
  }

  ghost predicate Pending(store: seq<Instance>, w: Copy) {
    CopyOf(store, w) && w.st == store[w.base].status && !Terminal(w.st.phase)
  }

  ghost predicate PendingNamed(c: Config, store: seq<Instance>, w: Copy) {
    CopyOf(store, w) && w.st == WithPodName(c, store[w.base].status) && !Terminal(w.st.phase)
  }

  /** A worker's copy is what the code computes from the version it was read at. */
  ghost predicate WorkerOk(c: Config, s: State, x: Worker) {
    match x
    case Done => true
    case Fetched(w) => Pending(s.store, w)
    case Templated(w, _) => Pending(s.store, w)
    case Deployed(w, _) => Pending(s.store, w) && DeploymentKey(c) in s.world
    case Serviced(w, tmpl) =>
      && PendingNamed(c, s.store, w)
      && DeploymentKey(c) in s.world
      && (Exposed(tmpl.ports) != [] ==> ServiceKey(c) in s.world)
    case Fenced(w, tmpl) => PendingNamed(c, s.store, w) && Provisioned(c, s.world, tmpl)
    case Dated(w, tmpl, now) =>
      && CopyOf(s.store, w)
      && !Terminal(w.st.phase)
      && EnsureExpiry(c, w.spec, WithPodName(c, s.store[w.base].status), tmpl, now) == Ok(w.st)
      && now <= s.clock
      && Provisioned(c, s.world, tmpl)
    case LifecycleFetched(w) => CopyOf(s.store, w) && w.st == s.store[w.base].status
    case StatusUpdate(w, cause, event) =>
      && CopyOf(s.store, w)
      && Justified(c, w.spec, s.store[w.base].status, cause)
      && w.st == Outcome(c, w.spec, s.store[w.base].status, cause)
      && Looked(cause, s.clock) <= s.clock
      && event == (if c.backend then Due(c, w.spec, s.store[w.base].status, w.st) else None)
      && SawProvisioned(c, s.world, cause)
    case SpecUpdate(base, spec) =>
      base < |s.store| && spec == s.store[base].spec.(ttlOverride := spec.ttlOverride)
    case Owing(_, _) => true
  }

  ghost predicate SawProvisioned(c: Config, world: map<Key, Owned>, cause: Cause) {
    cause.Observed? && cause.seen.Pods? ==> Provisioned(c, world, cause.seen.tmpl)
  }

  /**
   Nothing that was stored is ever taken back: versions, owned objects, writes and sent notifications only
   accumulate.
   */
  ghost predicate Extends(s: State, t: State) {
    && s.store <= t.store
    && s.log <= t.log
    && s.sent <= t.sent
    && s.clock <= t.clock
    && (forall k <- s.world :: k in t.world && t.world[k] == s.world[k])
  }

  ghost predicate WorkersOk(c: Config, s: State) {
    forall i :: 0 <= i < |s.workers| ==> WorkerOk(c, s, s.workers[i])
  }

  /** The accepted writes form a valid history that ends in the stored status. */
  ghost predicate HistoryOk(c: Config, s: State) {
    && s.store != []
    && Valid(c, s.log)
    && Current(s).status == Latest(s.log)
    && (s.log != [] ==> s.log[|s.log| - 1].at <= s.clock)
    && (forall k :: 0 <= k < |s.log| ==> SawProvisioned(c, s.world, s.log[k].cause))
  }

  lemma StepExtends(c: Config, s: State, step: Step)
    requires Enabled(c, s, step)
    ensures Extends(s, Apply(c, s, step))
  {}

  lemma WorkerOkExtends(c: Config, s: State, t: State, x: Worker)
    requires WorkerOk(c, s, x) && Extends(s, t)
    ensures WorkerOk(c, t, x)
  {}

  /** Reading the template and creating the owned objects. */
  lemma ProvisioningKeepsWorker(c: Config, s: State, step: Step, i: nat)
    requires Enabled(c, s, step) && At(s, i) && WorkerOk(c, s, s.workers[i])
    requires step in {FindDeployment(i), CreateDeployment(i), SkipService(i), FindService(i), CreateService(i),
                      FindFence(i), CreateFence(i)}
    ensures WorkerOk(c, Apply(c, s, step), Apply(c, s, step).workers[i])
  {}

  lemma TemplateKeepsWorker(c: Config, s: State, step: Step, i: nat)
    requires Enabled(c, s, step) && At(s, i) && WorkerOk(c, s, s.workers[i])
    requires step == FindNoTemplate(i) || step == FindUnreadyTemplate(i) || (step.FindTemplate? && step.i == i)
    ensures WorkerOk(c, Apply(c, s, step), Apply(c, s, step).workers[i])
  {}

  lemma DatingKeepsWorker(c: Config, s: State, i: nat)
    requires Enabled(c, s, DateInstance(i)) && WorkerOk(c, s, s.workers[i])
    ensures WorkerOk(c, Apply(c, s, DateInstance(i)), Apply(c, s, DateInstance(i)).workers[i])
  {}

  lemma ListingKeepsWorker(c: Config, s: State, i: nat, pods: seq<Pod>)
    requires Enabled(c, s, ListPods(i, pods)) && WorkerOk(c, s, s.workers[i])
    ensures WorkerOk(c, Apply(c, s, ListPods(i, pods)), Apply(c, s, ListPods(i, pods)).workers[i])
  {}

  lemma CheckingKeepsWorker(c: Config, s: State, i: nat)
    requires Enabled(c, s, CheckExpiry(i)) && WorkerOk(c, s, s.workers[i])
    ensures WorkerOk(c, Apply(c, s, CheckExpiry(i)), Apply(c, s, CheckExpiry(i)).workers[i])
  {}

  lemma StartingOrFinishingKeepsWorker(c: Config, s: State, step: Step, i: nat)
    requires Enabled(c, s, step) && (i < |s.workers| ==> WorkerOk(c, s, s.workers[i]))
    requires i < |Apply(c, s, step).workers|
    requires i < |s.workers| ==> Apply(c, s, step).workers[i] != s.workers[i]
    requires step.Tick? || step.StartInstance? || step.StartLifecycle? || step.StartExtend? || step.Submit?
             || step.Notify? || step.Stop?
    ensures WorkerOk(c, Apply(c, s, step), Apply(c, s, step).workers[i])
  {}

  lemma StepActsOnItsWorker(c: Config, s: State, step: Step, i: nat)
    requires Enabled(c, s, step)
    requires i < |Apply(c, s, step).workers|
    requires i < |s.workers| ==> Apply(c, s, step).workers[i] != s.workers[i]
    ensures || step.Tick? || step.StartInstance? || step.StartLifecycle? || step.StartExtend? || step.Submit?
            || step.Notify? || step.Stop? || (At(s, i) && step.i == i)
  {}

  /** The worker that a step acts on or starts is in order afterwards. */
  lemma SteppedWorkerOk(c: Config, s: State, step: Step, i: nat)
    requires Enabled(c, s, step) && (i < |s.workers| ==> WorkerOk(c, s, s.workers[i]))
    requires i < |Apply(c, s, step).workers|
    requires i < |s.workers| ==> Apply(c, s, step).workers[i] != s.workers[i]
    ensures WorkerOk(c, Apply(c, s, step), Apply(c, s, step).workers[i])
  {
    StepActsOnItsWorker(c, s, step, i);
    hide Apply;
    hide WorkerOk;
    hide Enabled;
    if step.FindNoTemplate? || step.FindUnreadyTemplate? || step.FindTemplate? {
      TemplateKeepsWorker(c, s, step, i);
    } else if step.DateInstance? {
      DatingKeepsWorker(c, s, i);
    } else if step.ListPods? {
      ListingKeepsWorker(c, s, i, step.pods);
    } else if step.CheckExpiry? {
      CheckingKeepsWorker(c, s, i);
    } else if step.Tick? || step.StartInstance? || step.StartLifecycle? || step.StartExtend? || step.Submit?
              || step.Notify? || step.Stop? {
      StartingOrFinishingKeepsWorker(c, s, step, i);
    } else {
      ProvisioningKeepsWorker(c, s, step, i);
    }
  }

  lemma StepKeepsWorkers(c: Config, s: State, step: Step)
    requires Enabled(c, s, step) && WorkersOk(c, s)
    ensures WorkersOk(c, Apply(c, s, step))
  {
    var t := Apply(c, s, step);
    StepExtends(c, s, step);
    forall i | 0 <= i < |t.workers| ensures WorkerOk(c, t, t.workers[i]) {
      if i < |s.workers| && t.workers[i] == s.workers[i] {
        WorkerOkExtends(c, s, t, s.workers[i]);
      } else {
        SteppedWorkerOk(c, s, step, i);
      }
    }
  }

  /** A status update that the API server accepts was computed from the status it replaces. */
  lemma AcceptedWriteIsCurrent(c: Config, s: State, i: nat)
    requires Enabled(c, s, Submit(i)) && WorkersOk(c, s)
    requires s.workers[i].StatusUpdate? && UpToDate(s, s.workers[i].w.base)
    ensures var t := Apply(c, s, Submit(i));
            && |t.log| == |s.log| + 1 && t.store != []
            && var write := t.log[|s.log|];
               && t.log == s.log + [write]
               && write.at == s.clock
               && SawProvisioned(c, s.world, write.cause)
               && write.before == Current(s).status
               && write.spec == Current(s).spec
               && write.after == Current(t).status
               && ValidWrite(c, write)
  {
    assert WorkerOk(c, s, s.workers[i]);
  }

  /** Only an accepted status update touches the stored status; in particular an extend request never does. */
  lemma OtherStepsKeepStatus(c: Config, s: State, step: Step)
    requires Enabled(c, s, step) && !Accepts(s, step)
    ensures var t := Apply(c, s, step); t.log == s.log && t.store != [] && Current(t).status == Current(s).status
  {}

  ghost predicate Accepts(s: State, step: Step) {
    step.Submit? && At(s, step.i) && s.workers[step.i].StatusUpdate? && UpToDate(s, s.workers[step.i].w.base)
  }

  lemma HistoryUnchanged(c: Config, s: State, t: State)
    requires HistoryOk(c, s) && Extends(s, t)
    requires t.log == s.log && t.store != [] && Current(t).status == Current(s).status
    ensures HistoryOk(c, t)
  {}

  lemma HistoryGrows(c: Config, s: State, t: State, write: Write)
    requires HistoryOk(c, s) && Extends(s, t)
    requires t.log == s.log + [write] && t.store != [] && write.after == Current(t).status
    requires write.before == Current(s).status && write.at == s.clock
    requires ValidWrite(c, write) && SawProvisioned(c, s.world, write.cause)
    ensures HistoryOk(c, t)
  {
    ValidAppend(c, s.log, write);
    forall k | 0 <= k < |t.log| ensures SawProvisioned(c, t.world, t.log[k].cause) {
      assert k < |s.log| ==> t.log[k] == s.log[k] && SawProvisioned(c, s.world, s.log[k].cause);
    }
  }

  lemma StepKeepsHistory(c: Config, s: State, step: Step)
    requires Enabled(c, s, step) && WorkersOk(c, s) && HistoryOk(c, s)
    ensures HistoryOk(c, Apply(c, s, step))
  {
    StepExtends(c, s, step);
    if Accepts(s, step) {
      AcceptedWriteIsCurrent(c, s, step.i);
      HistoryGrows(c, s, Apply(c, s, step), Apply(c, s, step).log[|s.log|]);
    } else {
      OtherStepsKeepStatus(c, s, step);
      HistoryUnchanged(c, s, Apply(c, s, step));
    }
  }

  /**
   An extend request is accepted only from the current version, and then changes the TTL override and nothing
   else.
   */
  lemma ExtendChangesOnlyTheSpec(c: Config, s: State, i: nat)
    requires WorkersOk(c, s) && Enabled(c, s, Submit(i)) && s.workers[i].SpecUpdate?
    ensures var t := Apply(c, s, Submit(i));
            && t.store != [] && t.world == s.world && t.log == s.log && t.sent == s.sent
            && Current(t).status == Current(s).status
            && (t.store != s.store ==> UpToDate(s, s.workers[i].base))
            && (UpToDate(s, s.workers[i].base) ==>
                  Current(t).spec == Current(s).spec.(ttlOverride := s.workers[i].spec.ttlOverride))
  {
    assert WorkerOk(c, s, s.workers[i]);
  }
}
