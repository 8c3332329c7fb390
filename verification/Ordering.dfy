/** In which order notifications go out, compared with the writes they announce. */
module Ordering {
  import opened Common
  import opened ApiTypes
  import opened Instances
  import opened Protocol
  import opened Invariants
  import opened Notifications
  import opened Safety

  // ----- Which write a notification announces

  ghost predicate Announces(c: Config, log: seq<Write>, write: nat, event: Event) {
    && write < |log| && c.backend
    && Due(c, log[write].spec, log[write].before, log[write].after) == Some(event)
  }

  /** Each notification sent announces an accepted write of its own, and so does each that is owed. */
  ghost predicate Sourced(c: Config, s: State) {
    && |s.sources| == |s.sent|
    && (forall k :: 0 <= k < |s.sent| ==> Announces(c, s.log, s.sources[k], s.sent[k]))
    && (forall j, k :: 0 <= j < k < |s.sources| ==> s.sources[j] != s.sources[k])
    && (forall i :: 0 <= i < |s.workers| && s.workers[i].Owing? ==>
          Announces(c, s.log, s.workers[i].write, s.workers[i].due) && s.workers[i].write !in s.sources)
    && (forall i, j :: 0 <= i < j < |s.workers| && s.workers[i].Owing? && s.workers[j].Owing? ==>
          s.workers[i].write != s.workers[j].write)
  }

  /** Every notification sent says what was stored by the write that it announces, and for whom. */
  lemma SentTells(c: Config, run: seq<State>, k: nat, j: nat)
    requires Run(c, run) && k < |run| && j < |run[k].sent|
    ensures j < |run[k].sources| && run[k].sources[j] < |run[k].log|
    ensures var event, w := run[k].sent[j], run[k].log[run[k].sources[j]];
            && event.instance == c.name && event.challenge == w.spec.templateRef
            && event.team == w.spec.team && event.player == w.spec.player
            && event.endpoint == w.after.endpoint && event.reason == w.after.reason
            && KindFits(event.kind, w.after.phase)
  {
    RunSourced(c, run, k);
    assert Announces(c, run[k].log, run[k].sources[j], run[k].sent[j]);
    var w := run[k].log[run[k].sources[j]];
    DueMeaning(c, w.spec, w.before, w.after);
  }

  ghost predicate NothingOwed(s: State) {
    Owed(s.workers) == multiset{}
  }

  lemma {:induction false} NothingOwedMeansNone(workers: seq<Worker>)
    ensures (forall i :: 0 <= i < |workers| ==> !workers[i].Owing?) <==> Owed(workers) == multiset{}
  {
    if workers != [] {
      var init, last := workers[..|workers| - 1], workers[|workers| - 1];
      NothingOwedMeansNone(init);
      assert forall i :: 0 <= i < |init| ==> init[i] == workers[i];
      if last.Owing? {
        assert last.due in Owed(workers);
      }
      if e :| e in Owed(init) {
        assert e in Owed(workers);
      }
    }
  }

  // ----- The effect of each step on what is owed

  /** Nothing is sent or accepted, and no worker comes to owe anything. */
  ghost predicate Calm(s: State, t: State) {
    && t.log == s.log && t.sent == s.sent && t.sources == s.sources
    && |s.workers| <= |t.workers|
    && (forall i :: 0 <= i < |t.workers| && t.workers[i].Owing? ==> i < |s.workers| && t.workers[i] == s.workers[i])
  }

  /** The next write is accepted, and only its worker may come to owe the notification of that write. */
  ghost predicate AcceptsWrite(c: Config, s: State, t: State, i: nat) {
    && At(s, i) && !s.workers[i].Owing?
    && |t.log| == |s.log| + 1 && t.log[..|s.log|] == s.log && t.sent == s.sent && t.sources == s.sources
    && |t.workers| == |s.workers| && t.workers == s.workers[i := t.workers[i]]
    && (t.workers[i].Owing? ==> t.workers[i].write == |s.log| && Announces(c, t.log, |s.log|, t.workers[i].due))
    && (t.workers[i].Owing? <==> DueFor(c, t.log[|s.log|]) != multiset{})
  }

  /** One worker sends what it owes. */
  ghost predicate Sends(s: State, t: State, i: nat) {
    && At(s, i) && s.workers[i].Owing?
    && t.log == s.log && t.workers == s.workers[i := Done]
    && t.sent == s.sent + [s.workers[i].due] && t.sources == s.sources + [s.workers[i].write]
  }

  lemma NotifySends(c: Config, s: State, i: nat)
    requires Enabled(c, s, Notify(i))
    ensures Sends(s, Apply(c, s, Notify(i)), i)
  {}

  lemma SubmitAccepts(c: Config, s: State, i: nat)
    requires Enabled(c, s, Submit(i)) && WorkersOk(c, s) && Accepts(s, Submit(i))
    ensures AcceptsWrite(c, s, Apply(c, s, Submit(i)), i)
  {
    AcceptedEventIsDue(c, s, i);
    var t := Apply(c, s, Submit(i));
    if t.workers[i].Owing? {
      assert t.workers[i].due in OwedBy(t.workers[i]);
    }
  }

  lemma OthersAreCalm(c: Config, s: State, step: Step)
    requires Enabled(c, s, step) && !step.Notify? && !Accepts(s, step)
    ensures Calm(s, Apply(c, s, step))
  {}

  lemma StepKeepsSources(c: Config, s: State, step: Step)
    requires Enabled(c, s, step) && WorkersOk(c, s) && Sourced(c, s)
    ensures Sourced(c, Apply(c, s, step))
  {
    hide Apply;
    hide WorkersOk;
    hide Enabled;
    var t := Apply(c, s, step);
    if step.Notify? {
      NotifySends(c, s, step.i);
      SendKeepsSources(c, s, t, step.i);
    } else if Accepts(s, step) {
      SubmitAccepts(c, s, step.i);
      AcceptKeepsSources(c, s, t, step.i);
    } else {
      OthersAreCalm(c, s, step);
    }
  }

  lemma SendKeepsSources(c: Config, s: State, t: State, i: nat)
    requires Sourced(c, s) && Sends(s, t, i)
    ensures Sourced(c, t)
  {
    hide Announces;
  }

  lemma AcceptKeepsSources(c: Config, s: State, t: State, i: nat)
    requires Sourced(c, s) && AcceptsWrite(c, s, t, i)
    ensures Sourced(c, t)
  {
    assert forall w: nat, e :: Announces(c, s.log, w, e) ==> Announces(c, t.log, w, e);
    assert forall w: nat, e :: Announces(c, s.log, w, e) ==> w < |s.log|;
    hide Announces;
    hide DueFor;
  }

  lemma {:induction false} RunSourced(c: Config, run: seq<State>, k: nat)
    requires Run(c, run) && k < |run|
    ensures Sourced(c, run[k])
  {
    if k > 0 {
      RunSourced(c, run, k - 1);
      RunInv(c, run, k - 1);
      assert Next(c, run[k - 1], run[k]);
      var step :| Enabled(c, run[k - 1], step) && run[k] == Apply(c, run[k - 1], step);
      hide Apply;
      StepKeepsSources(c, run[k - 1], step);
    }
  }

  // ----- Delivery in order

  /** The notifications sent announce later and later writes. */
  ghost predicate InOrder(s: State) {
    forall j, k :: 0 <= j < k < |s.sources| ==> s.sources[j] < s.sources[k]
  }

  /** A write is accepted whose notification will be owed. */
  ghost predicate ComesToOwe(c: Config, s: State, t: State) {
    |s.log| < |t.log| && DueFor(c, t.log[|s.log|]) != multiset{}
  }

  /** No reconcile has a write accepted that calls for a notification while another notification is still owed. */
  ghost predicate Quiet(c: Config, run: seq<State>) {
    forall k :: 0 < k < |run| && ComesToOwe(c, run[k - 1], run[k]) ==> NothingOwed(run[k - 1])
  }

  /** One worker at most owes a notification, and of a write later than all those announced. */
  ghost predicate Tidy(s: State) {
    && InOrder(s)
    && (forall i, j :: 0 <= i < j < |s.workers| ==> !(s.workers[i].Owing? && s.workers[j].Owing?))
    && (forall i, k :: 0 <= i < |s.workers| && s.workers[i].Owing? && 0 <= k < |s.sources| ==>
          s.sources[k] < s.workers[i].write)
  }

  lemma SilentAcceptKeepsTidy(s: State, t: State, i: nat)
    requires Tidy(s) && At(s, i) && t.sources == s.sources
    requires |t.workers| == |s.workers| && t.workers == s.workers[i := t.workers[i]] && !t.workers[i].Owing?
    ensures Tidy(t)
  {}

  lemma FirstOwedIsTidy(s: State, t: State, i: nat)
    requires InOrder(s) && At(s, i) && t.sources == s.sources
    requires forall j :: 0 <= j < |s.workers| ==> !s.workers[j].Owing?
    requires |t.workers| == |s.workers| && t.workers == s.workers[i := t.workers[i]]
    requires t.workers[i].Owing? ==> forall k :: 0 <= k < |s.sources| ==> s.sources[k] < t.workers[i].write
    ensures Tidy(t)
  {}

  lemma AcceptKeepsTidy(c: Config, s: State, t: State, i: nat)
    requires Sourced(c, s) && Tidy(s) && AcceptsWrite(c, s, t, i)
    requires ComesToOwe(c, s, t) ==> NothingOwed(s)
    ensures Tidy(t)
  {
    assert forall k :: 0 <= k < |s.sources| ==> Announces(c, s.log, s.sources[k], s.sent[k]);
    assert forall k :: 0 <= k < |s.sources| ==> s.sources[k] < |s.log|;
    hide DueFor;
    hide Owed;
    hide Announces;
    hide Sourced;
    hide Tidy;
    if t.workers[i].Owing? {
      NothingOwedMeansNone(s.workers);
      TidyIsInOrder(s);
      FirstOwedIsTidy(s, t, i);
    } else {
      SilentAcceptKeepsTidy(s, t, i);
    }
  }

  lemma TidyIsInOrder(s: State)
    requires Tidy(s)
    ensures InOrder(s)
  {}

  lemma SendKeepsTidy(s: State, t: State, i: nat)
    requires Tidy(s) && Sends(s, t, i)
    ensures Tidy(t)
  {}

  lemma StepKeepsTidy(c: Config, s: State, step: Step)
    requires Enabled(c, s, step) && WorkersOk(c, s) && Sourced(c, s) && Tidy(s)
    requires ComesToOwe(c, s, Apply(c, s, step)) ==> NothingOwed(s)
    ensures Tidy(Apply(c, s, step))
  {
    hide Apply;
    hide WorkersOk;
    hide Enabled;
    hide Sourced;
    var t := Apply(c, s, step);
    if step.Notify? {
      NotifySends(c, s, step.i);
      SendKeepsTidy(s, t, step.i);
    } else if Accepts(s, step) {
      SubmitAccepts(c, s, step.i);
      AcceptKeepsTidy(c, s, t, step.i);
    } else {
      OthersAreCalm(c, s, step);
    }
  }

  lemma {:induction false} QuietIsTidy(c: Config, run: seq<State>, k: nat)
    requires Run(c, run) && Quiet(c, run) && k < |run|
    ensures Tidy(run[k])
  {
    if k > 0 {
      QuietIsTidy(c, run, k - 1);
      RunSourced(c, run, k - 1);
      RunInv(c, run, k - 1);
      assert Next(c, run[k - 1], run[k]);
      var step :| Enabled(c, run[k - 1], step) && run[k] == Apply(c, run[k - 1], step);
      hide Apply;
      StepKeepsTidy(c, run[k - 1], step);
    }
  }

  /**
   In a quiet run notifications go out in the order of the writes they announce: `sources` is a strictly increasing
   map from the one to the other.
   */
  lemma QuietRunsDeliverInOrder(c: Config, run: seq<State>, k: nat)
    requires Run(c, run) && Quiet(c, run) && k < |run|
    ensures |run[k].sources| == |run[k].sent|
    ensures forall n :: 0 <= n < |run[k].sent| ==> Announces(c, run[k].log, run[k].sources[n], run[k].sent[n])
    ensures forall m, n :: 0 <= m < n < |run[k].sources| ==> run[k].sources[m] < run[k].sources[n]
  {
    RunSourced(c, run, k);
    QuietIsTidy(c, run, k);
  }

  /** Wherever two workers owe notifications of different writes, the later write's may go out first. */
  lemma OwedTwiceMayBeInverted(c: Config, s: State, i: nat, j: nat)
    requires s.store != [] && At(s, i) && At(s, j) && s.workers[i].Owing? && s.workers[j].Owing?
    requires s.workers[i].write < s.workers[j].write
    ensures CanDeliver(c, s, [j, i])
    ensures var t := Delivered(c, s, [j, i]);
            && t.sent == s.sent + [s.workers[j].due, s.workers[i].due]
            && t.sources == s.sources + [s.workers[j].write, s.workers[i].write]
            && t.log == s.log
            && !InOrder(t)
  {
    var u := Apply(c, s, Notify(j));
    var t := Apply(c, u, Notify(i));
    assert [j, i][1..] == [i] && [i][1..] == [];
    assert u.workers[i] == s.workers[i];
    var n := |s.sources|;
    assert t.sources == s.sources + [s.workers[j].write, s.workers[i].write];
    assert t.sources[n] == s.workers[j].write && t.sources[n + 1] == s.workers[i].write;
    assert Delivered(c, s, [j, i]) == t by {
      assert Delivered(c, t, []) == t;
      assert Delivered(c, u, [i]) == t;
    }
  }

  /** The given workers, in this order, can send what they owe. */
  ghost predicate CanDeliver(c: Config, s: State, who: seq<nat>)
    decreases |who|
  {
    who == [] || (Enabled(c, s, Notify(who[0])) && CanDeliver(c, Apply(c, s, Notify(who[0])), who[1..]))
  }

  ghost function Delivered(c: Config, s: State, who: seq<nat>): State
    requires CanDeliver(c, s, who)
    decreases |who|
  {
    if who == [] then s else Delivered(c, Apply(c, s, Notify(who[0])), who[1..])
  }

  lemma {:induction false} TidyDeliversInOrder(c: Config, s: State, who: seq<nat>)
    requires Tidy(s) && CanDeliver(c, s, who)
    ensures InOrder(Delivered(c, s, who))
    decreases |who|
  {
    hide Apply;
    if who != [] {
      var t := Apply(c, s, Notify(who[0]));
      NotifySends(c, s, who[0]);
      SendKeepsTidy(s, t, who[0]);
      TidyDeliversInOrder(c, t, who[1..]);
    }
  }

  lemma NoisyOwesTwice(c: Config, s: State, step: Step) returns (i: nat, j: nat)
    requires Enabled(c, s, step) && WorkersOk(c, s) && Sourced(c, s)
    requires ComesToOwe(c, s, Apply(c, s, step)) && !NothingOwed(s)
    ensures var t := Apply(c, s, step);
            && t.store != [] && At(t, i) && At(t, j) && t.workers[i].Owing? && t.workers[j].Owing?
            && t.workers[i].write < t.workers[j].write
  {
    hide Apply;
    hide WorkersOk;
    var t := Apply(c, s, step);
    StepAppendsOneWrite(c, s, step);
    NothingOwedMeansNone(s.workers);
    i :| 0 <= i < |s.workers| && s.workers[i].Owing?;
    if step.Notify? {
      NotifySends(c, s, step.i);
      assert false;
    } else if Accepts(s, step) {
      j := step.i;
      SubmitAccepts(c, s, j);
      assert t.workers[i] == s.workers[i];
      assert Announces(c, s.log, s.workers[i].write, s.workers[i].due);
    } else {
      OthersAreCalm(c, s, step);
      assert false;
    }
  }

  /** A run that is not quiet has a moment at which what is owed may go out in the wrong order. */
  lemma NoisyRunsMayInvert(c: Config, run: seq<State>) returns (k: nat, who: seq<nat>)
    requires Run(c, run) && !Quiet(c, run)
    ensures k < |run| && CanDeliver(c, run[k], who) && !InOrder(Delivered(c, run[k], who))
  {
    hide Apply;
    hide WorkersOk;
    hide HistoryOk;
    hide WorldOk;
    hide Accounted;
    hide Enabled;
    hide CanDeliver;
    hide Sourced;
    k :| 0 < k < |run| && ComesToOwe(c, run[k - 1], run[k]) && !NothingOwed(run[k - 1]);
    RunSourced(c, run, k - 1);
    RunInv(c, run, k - 1);
    assert Next(c, run[k - 1], run[k]);
    var step :| Enabled(c, run[k - 1], step) && run[k] == Apply(c, run[k - 1], step);
    var i, j := NoisyOwesTwice(c, run[k - 1], step);
    OwedTwiceMayBeInverted(c, run[k], i, j);
    who := [j, i];
  }

  /**
   Exactly when notifications are bound to go out in the order of their writes: if and only if the run is quiet. In a
   quiet run everything owed at any moment can only be delivered in order; in any other, there is a moment at which
   what is owed may go out in the wrong order.
   */
  lemma DeliveryInOrderExactly(c: Config, run: seq<State>)
    requires Run(c, run)
    ensures Quiet(c, run) <==>
              forall k: nat, who: seq<nat> ::
                k < |run| && CanDeliver(c, run[k], who) ==> InOrder(Delivered(c, run[k], who))
  {
    hide Apply;
    if Quiet(c, run) {
      forall k: nat, who: seq<nat> | k < |run| && CanDeliver(c, run[k], who)
        ensures InOrder(Delivered(c, run[k], who))
      {
        QuietIsTidy(c, run, k);
        TidyDeliversInOrder(c, run[k], who);
      }
    } else {
      var k, who := NoisyRunsMayInvert(c, run);
    }
  }
}
