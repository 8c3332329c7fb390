/** Where every notification has gone: sent, still owed by a running reconcile, or lost when one stopped. */
module Notifications {
  import opened ApiTypes
  import opened Instances
  import opened History
  import opened Protocol
  import opened Invariants

  function OwedBy(x: Worker): multiset<Event> {
    if x.Owing? then multiset{x.due} else multiset{}
  }

  function Owed(workers: seq<Worker>): multiset<Event> {
    if workers == [] then multiset{}
    else Owed(workers[..|workers| - 1]) + OwedBy(workers[|workers| - 1])
  }

  // ----- What a notification says

  /** The event names the instance, its challenge, team and player, and the endpoint and reason of a status. */
  ghost predicate Carries(event: Event, name: string, spec: Spec, st: Status) {
    && event.instance == name && event.challenge == spec.templateRef
    && event.team == spec.team && event.player == spec.player
    && event.endpoint == st.endpoint && event.reason == st.reason
  }

  /** The type of an event goes with the phase it announces. */
  ghost predicate KindFits(kind: EventType, phase: Phase) {
    && (kind == EventCreating <==> phase == Creating)
    && (kind == EventRunning <==> phase == Running)
    && (kind == EventUnhealthy <==> phase == Unhealthy)
    && (kind == EventExpiring <==> phase == Expiring)
    && (kind == EventExpired <==> phase == Expired)
    && (kind == EventFailed <==> phase == Failed)
  }

  /** A change of phase is announced with what was stored, unless it leads to Pending, Unset or Terminating. */
  lemma DueMeaning(c: Config, spec: Spec, before: Status, after: Status)
    ensures Due(c, spec, before, after).Some? <==>
              before.phase != after.phase && after.phase !in {Unset, Pending, Terminating}
    ensures Due(c, spec, before, after).Some? ==>
              var event := Due(c, spec, before, after).value;
              Carries(event, c.name, spec, after) && KindFits(event.kind, after.phase)
  {}

  // ----- What is due, owed and sent

  function DueFor(c: Config, w: Write): multiset<Event> {
    var event := Due(c, w.spec, w.before, w.after);
    if c.backend && event.Some? then multiset{event.value} else multiset{}
  }

  /** One event for each accepted write that changed the stored phase to one that has an event. */
  function DueInAll(c: Config, log: seq<Write>): multiset<Event> {
    if log == [] then multiset{}
    else DueInAll(c, log[..|log| - 1]) + DueFor(c, log[|log| - 1])
  }

  ghost predicate Accounted(c: Config, s: State) {
    multiset(s.sent) + Owed(s.workers) + s.lost == DueInAll(c, s.log)
  }

  lemma OwedAppend(workers: seq<Worker>, x: Worker)
    ensures Owed(workers + [x]) == Owed(workers) + OwedBy(x)
  {
    assert (workers + [x])[..|workers|] == workers;
  }

  lemma AddToBoth<T>(a: multiset<T>, b: multiset<T>, x: multiset<T>, y: multiset<T>, more: multiset<T>)
    requires a + x == b + y
    ensures (a + more) + x == (b + more) + y
  {
    forall e: T ensures ((a + more) + x)[e] == ((b + more) + y)[e] {
      assert (a + x)[e] == (b + y)[e];
    }
  }

  lemma {:induction false} OwedUpdate(workers: seq<Worker>, i: nat, x: Worker)
    requires i < |workers|
    ensures Owed(workers[i := x]) + OwedBy(workers[i]) == Owed(workers) + OwedBy(x)
  {
    hide OwedBy;
    var n := |workers| - 1;
    var init, last := workers[..n], workers[n];
    if i == n {
      assert workers[i := x] == init + [x] && workers == init + [last];
      OwedAppend(init, x);
      OwedAppend(init, last);
    } else {
      assert workers[i := x] == init[i := x] + [last] && workers == init + [last];
      OwedAppend(init[i := x], last);
      OwedAppend(init, last);
      OwedUpdate(init, i, x);
      AddToBoth(Owed(init[i := x]), Owed(init), OwedBy(init[i]), OwedBy(x), OwedBy(last));
    }
  }

  /** The event an accepted write carries is the one its change of phase calls for. */
  lemma AcceptedEventIsDue(c: Config, s: State, i: nat)
    requires Enabled(c, s, Submit(i)) && WorkersOk(c, s) && Accepts(s, Submit(i))
    ensures var t := Apply(c, s, Submit(i));
            && |t.log| == |s.log| + 1 && t.log[..|s.log|] == s.log
            && |t.workers| == |s.workers| && t.workers == s.workers[i := t.workers[i]]
            && OwedBy(s.workers[i]) == multiset{}
            && OwedBy(t.workers[i]) == DueFor(c, t.log[|s.log|])
            && t.sent == s.sent && t.lost == s.lost
  {
    assert WorkerOk(c, s, s.workers[i]);
    AcceptedWriteIsCurrent(c, s, i);
  }

  ghost predicate Starts(step: Step) {
    step.Tick? || step.StartInstance? || step.StartLifecycle? || step.StartExtend?
  }

  lemma StartsOweNothing(c: Config, s: State, step: Step)
    requires Enabled(c, s, step) && Starts(step)
    ensures var t := Apply(c, s, step);
            Owed(t.workers) == Owed(s.workers) && t.sent == s.sent && t.lost == s.lost && t.log == s.log
  {
    var t := Apply(c, s, step);
    if t.workers != s.workers {
      var x := t.workers[|s.workers|];
      assert t.workers == s.workers + [x];
      OwedAppend(s.workers, x);
    }
  }

  /** Outside an accepted update, a worker's own step leaves its notification where it is ... */
  lemma QuietStepBalances(c: Config, s: State, step: Step)
    requires Enabled(c, s, step) && !Starts(step) && !Accepts(s, step) && !step.Notify? && !step.Stop?
    ensures var t := Apply(c, s, step);
            && At(s, step.i) && |t.workers| == |s.workers|
            && t.workers == s.workers[step.i := t.workers[step.i]]
            && t.log == s.log && t.sent == s.sent && t.lost == s.lost
            && OwedBy(t.workers[step.i]) == OwedBy(s.workers[step.i]) == multiset{}
  {}

  /** ... or moves it from owed to sent, or from owed to lost. */
  lemma LastStepBalances(c: Config, s: State, step: Step)
    requires Enabled(c, s, step) && (step.Notify? || step.Stop?)
    ensures var t := Apply(c, s, step);
            && |t.workers| == |s.workers|
            && t.workers == s.workers[step.i := t.workers[step.i]]
            && t.log == s.log
            && multiset(t.sent) + t.lost + OwedBy(t.workers[step.i])
               == multiset(s.sent) + s.lost + OwedBy(s.workers[step.i])
  {}

  lemma Balance<T>(sent: multiset<T>, lost: multiset<T>, owed: multiset<T>, mine: multiset<T>,
                   sent': multiset<T>, lost': multiset<T>, owed': multiset<T>, mine': multiset<T>)
    requires sent' + lost' + mine' == sent + lost + mine
    requires owed' + mine == owed + mine'
    ensures sent' + owed' + lost' == sent + owed + lost
  {
    forall e: T ensures (sent' + owed' + lost')[e] == (sent + owed + lost)[e] {
      assert (sent' + lost' + mine')[e] == (sent + lost + mine)[e];
      assert (owed' + mine)[e] == (owed + mine')[e];
    }
  }

  lemma AcceptedStepKeepsAccount(c: Config, s: State, i: nat)
    requires Enabled(c, s, Submit(i)) && WorkersOk(c, s) && Accepts(s, Submit(i)) && Accounted(c, s)
    ensures Accounted(c, Apply(c, s, Submit(i)))
  {
    hide Apply;
    hide WorkersOk;
    var t := Apply(c, s, Submit(i));
    AcceptedEventIsDue(c, s, i);
    OwedUpdate(s.workers, i, t.workers[i]);
    var more := OwedBy(t.workers[i]);
    assert t.log[..|t.log| - 1] == s.log;
    assert DueInAll(c, t.log) == DueInAll(c, s.log) + more;
    assert Owed(t.workers) == Owed(s.workers) + more;
    assert multiset(s.sent) + (Owed(s.workers) + more) + s.lost == multiset(s.sent) + Owed(s.workers) + s.lost + more;
  }

  lemma StepKeepsAccount(c: Config, s: State, step: Step)
    requires Enabled(c, s, step) && WorkersOk(c, s) && Accounted(c, s)
    ensures Accounted(c, Apply(c, s, step))
  {
    hide Apply;
    hide WorkersOk;
    var t := Apply(c, s, step);
    if Starts(step) {
      StartsOweNothing(c, s, step);
    } else if Accepts(s, step) {
      AcceptedStepKeepsAccount(c, s, step.i);
    } else {
      hide Accounted;
      if step.Notify? || step.Stop? {
        LastStepBalances(c, s, step);
      } else {
        QuietStepBalances(c, s, step);
      }
      hide Enabled;
      hide OwedBy;
      BalancedStepKeepsAccount(c, s, t, step.i);
    }
  }

  /** What one worker does leaves the account in balance if it does so for that worker. */
  lemma BalancedStepKeepsAccount(c: Config, s: State, t: State, i: nat)
    requires Accounted(c, s) && At(s, i) && |t.workers| == |s.workers|
    requires t.workers == s.workers[i := t.workers[i]] && t.log == s.log
    requires multiset(t.sent) + t.lost + OwedBy(t.workers[i]) == multiset(s.sent) + s.lost + OwedBy(s.workers[i])
    ensures Accounted(c, t)
  {
    hide OwedBy;
    OwedUpdate(s.workers, i, t.workers[i]);
    Balance(multiset(s.sent), s.lost, Owed(s.workers), OwedBy(s.workers[i]),
            multiset(t.sent), t.lost, Owed(t.workers), OwedBy(t.workers[i]));
  }

  // ----- One ending at most

  predicate Ending(e: Event) {
    e.kind == EventExpired || e.kind == EventFailed
  }

  /** A change of phase is silent exactly if it leads to Pending, or if there is no backend. */
  lemma SilentExactly(c: Config, w: Write)
    requires ValidWrite(c, w) && w.before.phase != w.after.phase
    ensures DueFor(c, w) == multiset{} <==> w.after.phase == Pending || !c.backend
  {
    WhoWritesWhat(c, w);
    var event := Due(c, w.spec, w.before, w.after);
    assert event.Some? ==> event.value in multiset{event.value};
  }

  lemma DueEnding(c: Config, w: Write, e: Event)
    requires e in DueFor(c, w)
    ensures Ending(e) <==> Terminal(w.after.phase)
    ensures DueFor(c, w) == multiset{e}
  {}

  lemma {:induction false} NoEndingBefore(c: Config, log: seq<Write>, n: nat, e: Event)
    requires Valid(c, log) && n <= |log| && !Terminal(Before(log, n).phase)
    requires e in DueInAll(c, log[..n])
    ensures !Ending(e)
  {
    var m := n - 1;
    assert log[..n][..m] == log[..m];
    if e in DueFor(c, log[m]) {
      DueEnding(c, log[m], e);
    } else {
      NextStarts(c, log, m);
      NoEndingBefore(c, log, m, e);
    }
  }

  /** Among all the notifications an instance can ever give rise to, at most one announces an ending. */
  lemma OneEndingDue(c: Config, log: seq<Write>, e1: Event, e2: Event)
    requires Valid(c, log)
    requires e1 in DueInAll(c, log) && e2 in DueInAll(c, log) && Ending(e1) && Ending(e2)
    ensures e1 == e2 && DueInAll(c, log)[e1] == 1
  {
    var m := |log| - 1;
    NextStarts(c, log, m);
    forall e | e in DueInAll(c, log[..m]) ensures !Ending(e) {
      NoEndingBefore(c, log, m, e);
    }
    assert e1 in DueFor(c, log[m]) && e2 in DueFor(c, log[m]);
    DueEnding(c, log[m], e1);
  }

  lemma Twice<T>(s: seq<T>, i: nat, j: nat)
    requires i < j < |s| && s[i] == s[j]
    ensures multiset(s)[s[i]] >= 2
  {
    assert s == s[..j] + s[j..];
    assert s[..j][i] == s[i] && s[j..][0] == s[i];
  }

  lemma OneEndingSent(c: Config, s: State, i: nat, j: nat)
    requires HistoryOk(c, s) && Accounted(c, s)
    requires i < |s.sent| && j < |s.sent| && Ending(s.sent[i]) && Ending(s.sent[j])
    ensures i == j
  {
    var all := DueInAll(c, s.log);
    assert multiset(s.sent) <= all;
    assert s.sent[i] in multiset(s.sent) && s.sent[j] in multiset(s.sent);
    OneEndingDue(c, s.log, s.sent[i], s.sent[j]);
    if i < j {
      Twice(s.sent, i, j);
    } else if j < i {
      Twice(s.sent, j, i);
    }
  }
}
