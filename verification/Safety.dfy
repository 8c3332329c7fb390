/** The guarantees of the instance lifecycle, over every run of the protocol. */
module Safety {
  import opened Time
  import opened ApiTypes
  import opened Instances
  import opened Workload
  import opened History
  import opened Protocol
  import opened Invariants
  import opened Notifications

  /** Whatever is stored for this instance was built by the instance controller, under the instance's own name. */
  ghost predicate WorldOk(c: Config, world: map<Key, Owned>) {
    && (forall k <- world :: k.name == c.name)
    && (DeploymentKey(c) in world ==>
          exists team, tmpl :: world[DeploymentKey(c)] == BuildDeployment(c.name, team, tmpl))
    && (ServiceKey(c) in world ==> exists tmpl :: world[ServiceKey(c)] == BuildService(c.name, tmpl))
    && (FenceKey(c) in world ==> exists tmpl :: world[FenceKey(c)] == NetworkFence(BuildFence(c.name, tmpl)))
  }

  lemma StepKeepsWorld(c: Config, s: State, step: Step)
    requires Enabled(c, s, step) && WorldOk(c, s.world)
    ensures WorldOk(c, Apply(c, s, step).world)
  {}

  ghost predicate Inv(c: Config, s: State) {
    WorkersOk(c, s) && HistoryOk(c, s) && WorldOk(c, s.world) && Accounted(c, s)
  }

  lemma InitInv(c: Config, s: State)
    requires Init(s)
    ensures Inv(c, s)
  {}

  lemma NextInv(c: Config, s: State, t: State)
    requires Inv(c, s) && Next(c, s, t)
    ensures Inv(c, t) && Extends(s, t)
  {
    var step :| Enabled(c, s, step) && t == Apply(c, s, step);
    hide Apply;
    hide WorkersOk;
    hide HistoryOk;
    hide WorldOk;
    hide Accounted;
    StepExtends(c, s, step);
    StepKeepsWorkers(c, s, step);
    StepKeepsHistory(c, s, step);
    StepKeepsWorld(c, s, step);
    StepKeepsAccount(c, s, step);
  }

  lemma {:induction false} RunInv(c: Config, run: seq<State>, k: nat)
    requires Run(c, run) && k < |run|
    ensures Inv(c, run[k])
  {
    if k == 0 {
      InitInv(c, run[0]);
    } else {
      RunInv(c, run, k - 1);
      NextInv(c, run[k - 1], run[k]);
    }
  }

  lemma {:induction false} RunExtends(c: Config, run: seq<State>, i: nat, j: nat)
    requires Run(c, run) && i <= j < |run|
    ensures Extends(run[i], run[j])
    decreases j
  {
    hide Inv;
    hide Extends;
    if i < j {
      RunExtends(c, run, i, j - 1);
      RunInv(c, run, j - 1);
      NextInv(c, run[j - 1], run[j]);
      ExtendsOn(run[i], run[j - 1], run[j]);
    } else {
      ExtendsItself(run[i]);
    }
  }

  lemma ExtendsItself(s: State)
    ensures Extends(s, s)
  {}

  lemma ExtendsOn(s: State, t: State, u: State)
    requires Extends(s, t) && Extends(t, u)
    ensures Extends(s, u)
  {}

  ghost function StatusAt(run: seq<State>, k: nat): Status
    requires k < |run| && run[k].store != []
  {
    Current(run[k]).status
  }

  /**
   However reconciles interleave, the stored status is what the accepted writes leave behind when each is computed,
   one after the other, from the result of the one before.
   */
  lemma RunRefinesHistory(c: Config, run: seq<State>, k: nat)
    requires Run(c, run) && k < |run|
    ensures run[k].store != [] && StatusAt(run, k) == Latest(run[k].log) && Valid(c, run[k].log)
  {
    RunInv(c, run, k);
  }

  /** Once Expired or Failed is stored, the whole status stays as it is for the rest of the run. */
  lemma TerminalForever(c: Config, run: seq<State>, i: nat, j: nat)
    requires Run(c, run) && i <= j < |run|
    ensures run[i].store != [] && run[j].store != []
    ensures StatusAt(run, i).phase in {Expired, Failed} ==> StatusAt(run, j) == StatusAt(run, i)
  {
    RunRefinesHistory(c, run, i);
    RunRefinesHistory(c, run, j);
    RunExtends(c, run, i, j);
    if Terminal(StatusAt(run, i).phase) {
      TerminalIsLast(c, run[j].log, |run[i].log| - 1);
    }
  }

  /**
   StartedAt and ExpiresAt are stored together by one write, and never change again. Their difference is
   the TTL which that write saw, up to the fraction of a second that the API server drops.
   */
  lemma DatesAreWriteOnce(c: Config, run: seq<State>, i: nat, j: nat)
    requires Run(c, run) && i <= j < |run|
    ensures run[i].store != [] && run[j].store != []
    ensures StatusAt(run, i).startedAt.Some? == StatusAt(run, i).expiresAt.Some?
    ensures StatusAt(run, i).expiresAt.Some? ==> SameDates(StatusAt(run, i), StatusAt(run, j))
    ensures StatusAt(run, i).expiresAt.Some? ==>
              exists k: nat, d: Duration ::
                && k < |run[i].log| && Dates(c, run[i].log[k], d)
                && SameDates(run[i].log[k].after, StatusAt(run, i))
                && -SECOND < StatusAt(run, i).expiresAt.value - StatusAt(run, i).startedAt.value - d < SECOND
  {
    RunRefinesHistory(c, run, i);
    RunRefinesHistory(c, run, j);
    RunExtends(c, run, i, j);
    var n := |run[i].log|;
    BeforeWellDated(c, run[i].log, n);
    if StatusAt(run, i).expiresAt.Some? {
      assert Before(run[j].log, n) == Latest(run[i].log);
      DatesLast(c, run[j].log, n, |run[j].log|);
      var k, d := DatedOnce(c, run[i].log, n);
      StoredLifetime(run[i].log[k].cause.seen.now, d);
    }
  }

  /** What stays from one moment of a run to a later one: the guarantees that relate the two, together. */
  lemma WhatStays(c: Config, run: seq<State>, i: nat, j: nat)
    requires Run(c, run) && i <= j < |run|
    ensures run[i].store != [] && run[j].store != []
    ensures StatusAt(run, i).phase in {Expired, Failed} ==> StatusAt(run, j) == StatusAt(run, i)
    ensures StatusAt(run, i).expiresAt.Some? ==> SameDates(StatusAt(run, i), StatusAt(run, j))
    ensures Extends(run[i], run[j])
  {
    hide Run;
    hide Extends;
    TerminalForever(c, run, i, j);
    DatesAreWriteOnce(c, run, i, j);
    RunExtends(c, run, i, j);
  }

  /** Never early, even though each reconcile looked at the clock before its write was accepted. */
  lemma NeverEarly(c: Config, run: seq<State>, k: nat)
    requires Run(c, run) && k < |run|
    ensures run[k].store != []
    ensures var st := StatusAt(run, k);
            && (st.phase == Expired ==> st.expiresAt.Some? && st.expiresAt.value <= run[k].clock)
            && (st.phase == Expiring ==>
                  st.expiresAt.Some? && st.expiresAt.value - EXPIRING_GRACE_WINDOW <= run[k].clock)
  {
    RunRefinesHistory(c, run, k);
    RunInv(c, run, k);
    if StatusAt(run, k).phase in {Expiring, Expired} {
      NotEarly(c, run[k].log);
    }
  }

  /** The stored counter, in any state of any run. */
  lemma CounterInRun(c: Config, run: seq<State>, k: nat)
    requires Run(c, run) && k < |run|
    ensures run[k].store != []
    ensures StatusAt(run, k).unhealthyCount == Wrap32(UnreadyRun(run[k].log))
    ensures StatusAt(run, k).phase == Running ==> StatusAt(run, k).unhealthyCount == 0
  {
    RunRefinesHistory(c, run, k);
    var log := run[k].log;
    CounterCountsUnreadyRun(c, log, |log|);
    assert log[..|log|] == log;
    if StatusAt(run, k).phase == Running {
      UnhealthyExactlyAtThreshold(c, log, |log| - 1);
    }
  }

  /**
   The write that gave the instance its expiry saw its Deployment and NetworkFence, and its Service if the
   template exposes a port.
   */
  lemma DatedIsProvisioned(c: Config, s: State) returns (i: nat, d: Duration)
    requires HistoryOk(c, s) && Current(s).status.expiresAt.Some?
    ensures i < |s.log| && Dates(c, s.log[i], d) && Provisioned(c, s.world, s.log[i].cause.seen.tmpl)
  {
    i, d := DatedOnce(c, s.log, |s.log|);
    assert SawProvisioned(c, s.world, s.log[i].cause);
  }

  /** An instance that is or was active has an expiry, and with it everything it owns. */
  lemma ActiveIsProvisioned(c: Config, run: seq<State>, k: nat)
    requires Run(c, run) && k < |run|
    ensures run[k].store != []
    ensures StatusAt(run, k).phase in {Creating, Running, Unhealthy, Expiring, Expired} ==>
              StatusAt(run, k).expiresAt.Some?
    ensures StatusAt(run, k).expiresAt.Some? ==>
              exists i: nat, d: Duration ::
                && i < |run[k].log| && Dates(c, run[k].log[i], d)
                && Provisioned(c, run[k].world, run[k].log[i].cause.seen.tmpl)
  {
    RunRefinesHistory(c, run, k);
    RunInv(c, run, k);
    if StatusAt(run, k).phase in {Creating, Running, Unhealthy, Expiring, Expired} {
      ActiveIsDated(c, run[k].log);
    }
    if StatusAt(run, k).expiresAt.Some? {
      var i, d := DatedIsProvisioned(c, run[k]);
    }
  }

  /** Owned objects are created once, under the instance's name, and are never altered afterwards. */
  lemma OwnedOnce(c: Config, run: seq<State>, i: nat, j: nat, key: Key)
    requires Run(c, run) && i <= j < |run| && key in run[i].world
    ensures key in {DeploymentKey(c), ServiceKey(c), FenceKey(c)}
    ensures key in run[j].world && run[j].world[key] == run[i].world[key]
  {
    RunInv(c, run, i);
    RunExtends(c, run, i, j);
    assert key.name == c.name;
    match key.kind
    case DeploymentKind => assert key == DeploymentKey(c);
    case ServiceKind => assert key == ServiceKey(c);
    case NetworkFenceKind => assert key == FenceKey(c);
  }

  /** Every notification due is sent, owed or lost, and nothing else is ever sent; at most one ending is announced. */
  lemma NotificationsInRun(c: Config, run: seq<State>, k: nat)
    requires Run(c, run) && k < |run|
    ensures multiset(run[k].sent) + Owed(run[k].workers) + run[k].lost == DueInAll(c, run[k].log)
    ensures forall i: nat, j: nat ::
              i < |run[k].sent| && j < |run[k].sent| && Ending(run[k].sent[i]) && Ending(run[k].sent[j]) ==> i == j
  {
    RunInv(c, run, k);
    forall i: nat, j: nat | i < |run[k].sent| && j < |run[k].sent| && Ending(run[k].sent[i]) && Ending(run[k].sent[j])
      ensures i == j
    {
      OneEndingSent(c, run[k], i, j);
    }
  }

  /** An expiry never lies further ahead of the clock than the longest Go duration. */
  lemma ExpiryIsWithinReach(c: Config, run: seq<State>, k: nat)
    requires Run(c, run) && k < |run|
    ensures run[k].store != []
    ensures StatusAt(run, k).expiresAt.Some? ==> StatusAt(run, k).expiresAt.value - run[k].clock <= MAX_DURATION
  {
    RunRefinesHistory(c, run, k);
    RunInv(c, run, k);
    var log := run[k].log;
    if StatusAt(run, k).expiresAt.Some? {
      var i, d := DatedOnce(c, log, |log|);
      assert ValidWrite(c, log[i]);
      assert i < |log| - 1 ==> log[i].at <= log[|log| - 1].at;
    }
  }

  /** Terminating is documented but never stored; and the stored phase never becomes Unset again. */
  lemma PhasesInRun(c: Config, run: seq<State>, k: nat)
    requires Run(c, run) && k < |run|
    ensures run[k].store != []
    ensures StatusAt(run, k).phase != Terminating
    ensures StatusAt(run, k).phase == Unset <==> run[k].log == []
  {
    RunRefinesHistory(c, run, k);
    var log := run[k].log;
    if log != [] {
      assert ValidWrite(c, log[|log| - 1]);
      WhoWritesWhat(c, log[|log| - 1]);
    }
  }

  lemma StepAppendsOneWrite(c: Config, s: State, step: Step)
    requires Enabled(c, s, step) && WorkersOk(c, s)
    ensures var t := Apply(c, s, step);
            && t.store != []
            && (t.log == s.log ==> Current(t).status == Current(s).status)
            && (t.log != s.log ==>
                  && |t.log| == |s.log| + 1 && t.log == s.log + [t.log[|s.log|]]
                  && ValidWrite(c, t.log[|s.log|])
                  && t.log[|s.log|].before == Current(s).status && t.log[|s.log|].after == Current(t).status
                  && t.log[|s.log|].spec == Current(s).spec)
  {
    hide Apply;
    hide ValidWrite;
    hide WorkersOk;
    if Accepts(s, step) {
      AcceptedWriteIsCurrent(c, s, step.i);
    } else {
      OtherStepsKeepStatus(c, s, step);
    }
  }

  /**
   From one state of a run to the next the stored status changes by one accepted write at most, and that write was
   computed from the status and spec stored just before it.
   */
  lemma AcceptedWritesAreCurrent(c: Config, run: seq<State>, k: nat)
    requires Run(c, run) && k + 1 < |run|
    ensures run[k].store != [] && run[k + 1].store != []
    ensures run[k + 1].log == run[k].log ==> StatusAt(run, k + 1) == StatusAt(run, k)
    ensures run[k + 1].log != run[k].log ==>
              && |run[k + 1].log| == |run[k].log| + 1
              && var w := run[k + 1].log[|run[k].log|];
                 && run[k + 1].log == run[k].log + [w]
                 && ValidWrite(c, w)
                 && w.before == StatusAt(run, k) && w.after == StatusAt(run, k + 1)
                 && w.spec == Current(run[k]).spec
  {
    hide ValidWrite;
    hide Apply;
    RunInv(c, run, k);
    assert Next(c, run[k], run[k + 1]);
    var step :| Enabled(c, run[k], step) && run[k + 1] == Apply(c, run[k], step);
    StepAppendsOneWrite(c, run[k], step);
  }

  /** Every accepted write of a run was the last one at some state of the run. */
  lemma {:induction false} WriteWasLast(c: Config, run: seq<State>, i: nat, j: nat, n: nat) returns (k: nat)
    requires Run(c, run) && i <= j < |run| && |run[i].log| <= n < |run[j].log|
    ensures i < k <= j && |run[k].log| == n + 1
    decreases j
  {
    hide Run;
    AtMostOneWrite(c, run, j - 1);
    if n < |run[j - 1].log| {
      k := WriteWasLast(c, run, i, j - 1, n);
    } else {
      k := j;
    }
  }

  lemma AtMostOneWrite(c: Config, run: seq<State>, k: nat)
    requires Run(c, run) && k + 1 < |run|
    ensures |run[k + 1].log| <= |run[k].log| + 1
  {
    hide ValidWrite;
    AcceptedWritesAreCurrent(c, run, k);
  }

  /** Since state i, in which the instance was Expiring, it is out of Expiring and Expired only by an observation. */
  ghost predicate PhaseOfLastWrite(c: Config, run: seq<State>, i: nat, j: nat, k: nat)
    requires i <= k <= j < |run|
  {
    && run[k].store != [] && |run[i].log| <= |run[k].log| <= |run[j].log|
    && if |run[k].log| == |run[i].log| then StatusAt(run, k).phase == Expiring
       else StatusAt(run, k).phase in {Expiring, Expired} <==> run[j].log[|run[k].log| - 1].cause.Elapsed?
  }

  lemma LastWriteTellsPhase(c: Config, run: seq<State>, i: nat, j: nat, k: nat)
    requires Run(c, run) && i <= k <= j < |run| && run[i].store != [] && StatusAt(run, i).phase == Expiring
    ensures PhaseOfLastWrite(c, run, i, j, k)
  {
    hide ValidWrite;
    RunExtends(c, run, i, k);
    RunExtends(c, run, k, j);
    RunRefinesHistory(c, run, i);
    RunRefinesHistory(c, run, k);
    var log := run[k].log;
    if |log| > |run[i].log| {
      assert ValidWrite(c, log[|log| - 1]);
      WhoWritesWhat(c, log[|log| - 1]);
      assert run[j].log[|log| - 1] == log[|log| - 1];
    }
  }

  /**
   Exactly when Expiring is final: an instance stays Expiring until it is Expired, and then for good, if and only if no
   write of the instance controller is accepted.
   */
  lemma ExpiringLastsExactly(c: Config, run: seq<State>, i: nat, j: nat)
    requires Run(c, run) && i <= j < |run|
    ensures run[i].store != [] && |run[i].log| <= |run[j].log|
    ensures forall k :: i <= k <= j ==> run[k].store != []
    ensures StatusAt(run, i).phase == Expiring ==>
              ((forall k :: i <= k <= j ==> StatusAt(run, k).phase in {Expiring, Expired}) <==>
                 forall n :: |run[i].log| <= n < |run[j].log| ==> run[j].log[n].cause.Elapsed?)
  {
    hide ValidWrite;
    RunExtends(c, run, i, j);
    forall k | i <= k <= j ensures run[k].store != [] {
      RunRefinesHistory(c, run, k);
    }
    if StatusAt(run, i).phase == Expiring {
      forall k: nat | i <= k <= j ensures PhaseOfLastWrite(c, run, i, j, k) {
        LastWriteTellsPhase(c, run, i, j, k);
      }
      if forall k :: i <= k <= j ==> StatusAt(run, k).phase in {Expiring, Expired} {
        forall n | |run[i].log| <= n < |run[j].log| ensures run[j].log[n].cause.Elapsed? {
          var k := WriteWasLast(c, run, i, j, n);
          assert PhaseOfLastWrite(c, run, i, j, k);
        }
      } else {
        var k: nat :| i <= k <= j && StatusAt(run, k).phase !in {Expiring, Expired};
        assert PhaseOfLastWrite(c, run, i, j, k);
      }
    }
  }

  /** No run steps from Running straight to Unhealthy unless the reconcile saw a threshold of at most one. */
  lemma RunningToUnhealthyInRun(c: Config, run: seq<State>, k: nat)
    requires Run(c, run) && k + 1 < |run|
    ensures run[k].store != [] && run[k + 1].store != []
    ensures StatusAt(run, k).phase == Running && StatusAt(run, k + 1).phase == Unhealthy ==>
              && run[k + 1].log != run[k].log
              && SawHealth(run[k + 1].log[|run[k + 1].log| - 1], PodIsUnready)
              && EffectiveThreshold(run[k + 1].log[|run[k + 1].log| - 1].cause.seen.tmpl) <= 1
  {
    hide ValidWrite;
    AcceptedWritesAreCurrent(c, run, k);
    if StatusAt(run, k).phase == Running && StatusAt(run, k + 1).phase == Unhealthy {
      RunRefinesHistory(c, run, k + 1);
      RunningToUnhealthy(c, run[k + 1].log, |run[k].log|);
    }
  }
}
