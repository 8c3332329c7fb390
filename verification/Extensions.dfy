/** Exactly when an extension of the time to live takes effect. */
module Extensions {
  import opened Common
  import opened Time
  import opened ApiTypes
  import opened Instances
  import opened History
  import opened Protocol
  import opened Invariants
  import opened Safety

  // ----- Which version of the spec

  /** metadata.generation of the v-th version: one more than the number of changes of the spec up to it. */
  function Generation(store: seq<Instance>, v: nat): nat
    requires v < |store|
  {
    if v == 0 then 1
    else Generation(store, v - 1) + if store[v].spec != store[v - 1].spec then 1 else 0
  }

  lemma {:induction false} GenerationOfPrefix(store: seq<Instance>, more: seq<Instance>, v: nat)
    requires store <= more && v < |store|
    ensures Generation(store, v) == Generation(more, v)
  {
    if v > 0 {
      GenerationOfPrefix(store, more, v - 1);
    }
  }

  lemma GenerationOfAppended(store: seq<Instance>, x: Instance)
    requires store != []
    ensures Generation(store + [x], |store|)
            == Generation(store, |store| - 1) + if x.spec != store[|store| - 1].spec then 1 else 0
  {
    GenerationOfPrefix(store, store + [x], |store| - 1);
  }

  ghost function GenerationAt(run: seq<State>, k: nat): nat
    requires k < |run| && run[k].store != []
  {
    Generation(run[k].store, |run[k].store| - 1)
  }

  /** The step after the k-th state stores another spec. */
  ghost predicate ChangesSpec(run: seq<State>, k: nat) {
    && k + 1 < |run| && run[k].store != [] && run[k + 1].store != []
    && Current(run[k + 1]).spec != Current(run[k]).spec
  }

  /** A step stores nothing, another status, or another override. */
  ghost predicate StoresOneThing(s: State, t: State) {
    && s.store != [] && t.store != []
    && (t.store == s.store || t.store == s.store + [Current(t)])
    && (Current(t).spec == Current(s).spec
        || (t.log == s.log
            && Current(t) == Instance(Current(s).spec.(ttlOverride := Current(t).spec.ttlOverride), Current(s).status)))
  }

  lemma SubmitStoresOneThing(c: Config, s: State, i: nat)
    requires s.store != [] && WorkersOk(c, s) && Enabled(c, s, Submit(i))
    ensures StoresOneThing(s, Apply(c, s, Submit(i)))
  {
    assert WorkerOk(c, s, s.workers[i]);
  }

  lemma OthersStoreNothing(c: Config, s: State, step: Step)
    requires Enabled(c, s, step) && !step.Submit?
    ensures StoresOneThing(s, Apply(c, s, step)) && Apply(c, s, step).store == s.store
  {}

  lemma StepStoresOneThing(c: Config, run: seq<State>, k: nat)
    requires Run(c, run) && k + 1 < |run|
    ensures StoresOneThing(run[k], run[k + 1])
  {
    RunInv(c, run, k);
    assert Next(c, run[k], run[k + 1]);
    var step :| Enabled(c, run[k], step) && run[k + 1] == Apply(c, run[k], step);
    hide Apply;
    if step.Submit? {
      SubmitStoresOneThing(c, run[k], step.i);
    } else {
      OthersStoreNothing(c, run[k], step);
    }
  }

  /** Only an extension changes the spec: a worker submits it from the current version, and it changes the override. */
  lemma OnlyExtensionsChangeSpec(c: Config, run: seq<State>, p: nat) returns (i: nat)
    requires Run(c, run) && ChangesSpec(run, p)
    ensures At(run[p], i) && run[p].workers[i].SpecUpdate? && UpToDate(run[p], run[p].workers[i].base)
    ensures Current(run[p + 1]).spec == run[p].workers[i].spec
    ensures run[p].workers[i].spec == Current(run[p]).spec.(ttlOverride := run[p].workers[i].spec.ttlOverride)
    ensures Current(run[p + 1]).status == Current(run[p]).status && run[p + 1].log == run[p].log
  {
    RunInv(c, run, p);
    assert Next(c, run[p], run[p + 1]);
    var step :| Enabled(c, run[p], step) && run[p + 1] == Apply(c, run[p], step);
    hide Run;
    hide Apply;
    if !step.Submit? {
      OthersStoreNothing(c, run[p], step);
      assert false;
    }
    i := step.i;
    SubmitChangesSpec(c, run[p], i);
  }

  lemma SubmitChangesSpec(c: Config, s: State, i: nat)
    requires s.store != [] && WorkersOk(c, s) && Enabled(c, s, Submit(i))
    ensures var t := Apply(c, s, Submit(i));
            t.store != [] && Current(t).spec != Current(s).spec ==>
              && At(s, i) && s.workers[i].SpecUpdate? && UpToDate(s, s.workers[i].base)
              && Current(t).spec == s.workers[i].spec
              && s.workers[i].spec == Current(s).spec.(ttlOverride := s.workers[i].spec.ttlOverride)
              && Current(t).status == Current(s).status && t.log == s.log
  {
    assert WorkerOk(c, s, s.workers[i]);
  }

  lemma GenerationStep(c: Config, run: seq<State>, k: nat)
    requires Run(c, run) && k + 1 < |run|
    ensures run[k].store != [] && run[k + 1].store != []
    ensures GenerationAt(run, k + 1) == GenerationAt(run, k) + if ChangesSpec(run, k) then 1 else 0
  {
    StepStoresOneThing(c, run, k);
    hide Run;
    hide Generation;
    GenerationOfAppended(run[k].store, Current(run[k + 1]));
  }

  /** Generations only grow, and stay the same exactly as long as no step changes the spec. */
  lemma {:induction false} GenerationsCompared(c: Config, run: seq<State>, i: nat, j: nat)
    requires Run(c, run) && i <= j < |run|
    ensures run[i].store != [] && run[j].store != []
    ensures GenerationAt(run, i) <= GenerationAt(run, j)
    ensures GenerationAt(run, i) == GenerationAt(run, j) <==> forall k :: i <= k < j ==> !ChangesSpec(run, k)
    ensures GenerationAt(run, i) == GenerationAt(run, j) ==> Current(run[i]).spec == Current(run[j]).spec
    decreases j
  {
    hide Run;
    hide GenerationAt;
    if i < j {
      GenerationsCompared(c, run, i, j - 1);
      GenerationStep(c, run, j - 1);
    } else {
      RunRefinesHistory(c, run, i);
    }
  }

  // ----- The write that dates the instance

  ghost predicate DatedAt(run: seq<State>, k: nat) {
    k < |run| && run[k].store != [] && StatusAt(run, k).expiresAt.Some?
  }

  /** Worker i submits, in the m-th state, the status that dates the instance, for the duration d. */
  ghost predicate DatingStep(c: Config, run: seq<State>, m: nat, i: nat, d: Duration) {
    && m + 1 < |run| && run[m].store != [] && run[m + 1].store != []
    && Enabled(c, run[m], Submit(i)) && Accepts(run[m], Submit(i)) && run[m + 1] == Apply(c, run[m], Submit(i))
    && |run[m + 1].log| == |run[m].log| + 1
    && Dates(c, run[m + 1].log[|run[m].log|], d)
    && run[m + 1].log[|run[m].log|].after == StatusAt(run, m + 1)
    && run[m + 1].log[|run[m].log|].spec == Current(run[m]).spec
  }

  lemma DatingStepAt(c: Config, run: seq<State>, m: nat) returns (i: nat, d: Duration)
    requires Run(c, run) && m + 1 < |run| && !DatedAt(run, m) && DatedAt(run, m + 1)
    ensures DatingStep(c, run, m, i, d)
  {
    RunRefinesHistory(c, run, m);
    RunInv(c, run, m);
    BeforeWellDated(c, run[m].log, |run[m].log|);
    assert Next(c, run[m], run[m + 1]);
    var step :| Enabled(c, run[m], step) && run[m + 1] == Apply(c, run[m], step);
    hide Apply;
    hide Enabled;
    hide ValidWrite;
    hide Dates;
    StepAppendsOneWrite(c, run[m], step);
    if !Accepts(run[m], step) {
      OtherStepsKeepStatus(c, run[m], step);
      assert false;
    }
    i := step.i;
    var w := run[m + 1].log[|run[m].log|];
    WriteDates(c, w);
    d :| Dates(c, w, d);
  }

  lemma DatedStays(c: Config, run: seq<State>, i: nat, j: nat)
    requires Run(c, run) && i <= j < |run|
    ensures run[i].store != [] && run[j].store != []
    ensures DatedAt(run, i) ==> DatedAt(run, j) && SameDates(StatusAt(run, i), StatusAt(run, j))
  {
    DatesAreWriteOnce(c, run, i, j);
  }

  lemma BornUndated(c: Config, run: seq<State>)
    requires Run(c, run)
    ensures !DatedAt(run, 0)
  {}

  /** The instance got the dates that it has in state j by the step after state m, and had none up to then. */
  ghost predicate DatedBy(run: seq<State>, m: nat, j: nat) {
    && m < j < |run|
    && (forall k: nat :: k <= j ==> (DatedAt(run, k) <==> m < k))
    && run[m + 1].store != [] && run[j].store != [] && SameDates(StatusAt(run, m + 1), StatusAt(run, j))
  }

  lemma DatedByStep(c: Config, run: seq<State>, m: nat)
    requires Run(c, run) && DatedAt(run, m + 1) && !DatedAt(run, m)
    ensures DatedBy(run, m, m + 1)
  {
    forall k: nat | k <= m ensures !DatedAt(run, k) {
      DatedStays(c, run, k, m);
    }
  }

  lemma DatedByStays(c: Config, run: seq<State>, m: nat, j: nat)
    requires Run(c, run) && DatedBy(run, m, j) && j + 1 < |run|
    ensures DatedBy(run, m, j + 1)
  {
    hide Run;
    hide DatedAt;
    assert DatedAt(run, j);
    DatedStays(c, run, j, j + 1);
  }

  /**
   A dated instance was dated by one step of its run, from the spec that was stored just then; before that step it
   had no dates, and from then on it has had the dates of that step's write.
   */
  lemma {:induction false} DatedFromStoredSpec(c: Config, run: seq<State>, j: nat) returns (m: nat, i: nat, d: Duration)
    requires Run(c, run) && DatedAt(run, j)
    ensures DatedBy(run, m, j) && DatingStep(c, run, m, i, d)
    decreases j
  {
    BornUndated(c, run);
    hide Run;
    hide DatingStep;
    hide DatedBy;
    if DatedAt(run, j - 1) {
      m, i, d := DatedFromStoredSpec(c, run, j - 1);
      DatedByStays(c, run, m, j - 1);
    } else {
      m := j - 1;
      i, d := DatingStepAt(c, run, m);
      DatedByStep(c, run, m);
    }
  }

  // ----- Extensions

  /** No extension that changes the spec is accepted between the p-th state and the write that dates the instance. */
  ghost predicate LastBeforeDating(run: seq<State>, p: nat, j: nat) {
    !DatedAt(run, p) && forall k: nat :: p < k < j && !DatedAt(run, k) ==> !ChangesSpec(run, k)
  }

  /** The copy that the worker's update was computed from has the generation of the spec stored after state p. */
  ghost predicate ReadAfter(run: seq<State>, p: nat, m: nat, i: nat) {
    && m < |run| && p + 1 < |run| && run[p + 1].store != []
    && At(run[m], i) && run[m].workers[i].StatusUpdate? && run[m].workers[i].w.base < |run[m].store|
    && Generation(run[m].store, run[m].workers[i].w.base) == GenerationAt(run, p + 1)
  }

  lemma DatingStepMeaning(c: Config, run: seq<State>, m: nat, i: nat, d: Duration)
    requires DatingStep(c, run, m, i, d)
    ensures !ChangesSpec(run, m)
    ensures run[m].store != []
    ensures At(run[m], i) && run[m].workers[i].StatusUpdate? && run[m].workers[i].w.base == |run[m].store| - 1
  {}

  lemma GenerationOfDating(c: Config, run: seq<State>, p: nat, m: nat, j: nat)
    requires Run(c, run) && p < j && ChangesSpec(run, p) && DatedBy(run, m, j) && !ChangesSpec(run, m)
    ensures run[m].store != [] && run[p + 1].store != []
    ensures GenerationAt(run, m) == GenerationAt(run, p + 1) <==> LastBeforeDating(run, p, j)
    ensures LastBeforeDating(run, p, j) ==> Current(run[m]).spec == Current(run[p + 1]).spec
  {
    hide Run;
    hide GenerationAt;
    hide DatedAt;
    GenerationStep(c, run, p);
    hide ChangesSpec;
    if m < p {
      GenerationsCompared(c, run, m, p);
    } else {
      GenerationsCompared(c, run, p + 1, m);
    }
  }

  /**
   Exactly when an extension counts: the copy from which the instance is dated has the generation of the spec that
   the extension stored, if and only if the instance had no dates when the extension was accepted and no later
   extension was accepted before it got them. The dates are then computed from the extension's override.
   */
  lemma ExtensionCountsExactly(c: Config, run: seq<State>, p: nat, j: nat) returns (m: nat, i: nat, d: Duration)
    requires Run(c, run) && p < j && ChangesSpec(run, p) && DatedAt(run, j)
    ensures DatedBy(run, m, j) && DatingStep(c, run, m, i, d)
    ensures ReadAfter(run, p, m, i) <==> LastBeforeDating(run, p, j)
    ensures LastBeforeDating(run, p, j) ==> DatesFrom(c, run, p, j, d)
  {
    m, i, d := DatedFromStoredSpec(c, run, j);
    DatingStepMeaning(c, run, m, i, d);
    GenerationOfDating(c, run, p, m, j);
    if LastBeforeDating(run, p, j) {
      DatedFromExtension(c, run, p, m, i, j, d);
    }
    hide Run;
    hide DatingStep;
    hide DatedBy;
    hide LastBeforeDating;
    hide DatedAt;
  }

  /** The expiry of state j lies d, the duration of the override stored after state p, after the start. */
  ghost predicate DatesFrom(c: Config, run: seq<State>, p: nat, j: nat, d: Duration) {
    && p + 1 < |run| && run[p + 1].store != [] && DatedAt(run, j)
    && (Current(run[p + 1]).spec.ttlOverride != "" ==> c.parse(Current(run[p + 1]).spec.ttlOverride) == Some(d))
    && exists now :: StatusAt(run, j).startedAt == Some(Truncated(now))
                  && StatusAt(run, j).expiresAt == Some(Truncated(now + d))
  }

  lemma DatedFromExtension(c: Config, run: seq<State>, p: nat, m: nat, i: nat, j: nat, d: Duration)
    requires DatedBy(run, m, j) && DatingStep(c, run, m, i, d) && DatedAt(run, j)
    requires p + 1 < |run| && run[p + 1].store != [] && run[m].store != []
    requires Current(run[m]).spec == Current(run[p + 1]).spec
    ensures DatesFrom(c, run, p, j, d)
  {
    hide Apply;
  }
}
