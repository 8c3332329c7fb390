/**
 The lifecycle controller and the timers it sets.

 A reconcile that asks for a requeue after a positive delay is run again when that delay is over, or somewhat later;
 a delay that is zero or negative asks for nothing. The work queue, which is client-go's, keeps one wake-up for each
 object: a later one than it has is dropped, an earlier one takes its place, and a reconcile that asks for nothing,
 or that something else gave rise to, leaves it as it is.
 */
module Timers {
  import opened Common
  import opened Time
  import opened ApiTypes
  import opened Calls
  import opened Instances
  import opened History
  import opened Protocol
  import opened Safety
  import opened ApiServer
  import LifecycleReconciler

  // ----- One reconcile and its timer

  function RequeueAfter(st: Status, now: int): int {
    match Lifecycle(st, now)
    case Wait(after) => after
    case Move(_, _, _, after) => after
  }

  predicate HasTimer(st: Status, now: int) {
    RequeueAfter(st, now) > 0
  }

  /** The wake-up that the queue holds after a reconcile which ran at `now` and asked for this delay. */
  function Asked(pending: Option<int>, now: int, after: int): Option<int> {
    if after <= 0 || (pending.Some? && pending.value <= now + after) then pending else Some(now + after)
  }

  function PendingAfter(st: Status, now: int, pending: Option<int>): Option<int> {
    Asked(pending, now, RequeueAfter(st, now))
  }

  /** The one reconcile that asks for no timer: it finds the instance Expiring, with some of the grace window left. */
  lemma NoTimerExactlyInGraceWindow(st: Status, now: int)
    ensures !HasTimer(st, now) <==>
            && st.phase == Expiring && st.expiresAt.Some?
            && 0 < st.expiresAt.value - now <= EXPIRING_GRACE_WINDOW
  {}

  /**
   Each timer of a live instance is set for the very next instant at which the lifecycle rules would do something else:
   until then another look changes nothing, and then they move it on.
   */
  lemma TimerHitsTheNextChange(st: Status, now: int, t: int)
    requires Live(st) && 0 < st.expiresAt.value - now <= MAX_DURATION && HasTimer(st, now)
    requires st.phase == Expiring ==> st.expiresAt.value - now <= 60_000_000_000
    ensures var next, wake := LifecycleOutcome(st, now), now + RequeueAfter(st, now);
            && (now <= t < wake ==> LifecycleOutcome(next, t) == next)
            && LifecycleOutcome(next, wake).phase == (if next.phase == Expiring then Expired else Expiring)
            && wake == (if next.phase == Expiring then st.expiresAt.value else st.expiresAt.value - 60_000_000_000)
  {}

  // ----- Left to the timers

  datatype Chain = Chain(
    reconciles: nat,  // how often the controller ran
    expired: bool,    // whether it got to store Expired
    at: int)          // when it ran last

  predicate Live(st: Status) {
    !Terminal(st.phase) && st.expiresAt.Some?
  }

  /** How far an unexpired instance still is from its end, if it is looked at next at `now`: a termination measure. */
  function Distance(st: Status, now: int): nat {
    if !Live(st) then 0
    else
      var left := st.expiresAt.value - now;
      if left <= 0 then 0
      else if left <= EXPIRING_GRACE_WINDOW then (if st.phase == Expiring then 1 else 2)
      else 3 + left
  }

  function Measure(st: Status, pending: Option<int>): nat {
    if pending.None? then 0 else 1 + Distance(st, pending.value)
  }

  lemma NextIsNearer(st: Status, p: int, now: int)
    requires Live(st) && p <= now && LifecycleOutcome(st, now).phase != Expired
    ensures Live(LifecycleOutcome(st, now))
    ensures Measure(LifecycleOutcome(st, now), PendingAfter(st, now, None)) < Measure(st, Some(p))
  {}

  /**
   What happens from `now` on, with this wake-up pending, if nothing but the timers runs the controller; the k-th
   wake-up is late by late(k). The chain stops at Expired, or for want of a wake-up.
   */
  ghost function Follow(st: Status, now: int, pending: Option<int>, late: nat -> nat, k: nat): Chain
    requires Live(st)
    decreases Measure(st, pending)
  {
    match pending
    case None => Chain(0, false, now)
    case Some(p) =>
      var wake := p + late(k);
      var next := LifecycleOutcome(st, wake);
      if next.phase == Expired then Chain(1, true, wake)
      else
        NextIsNearer(st, p, wake);
        var rest := Follow(next, wake, PendingAfter(st, wake, None), late, k + 1);
        rest.(reconciles := rest.reconciles + 1)
  }

  /**
   Unless the wake-up finds the dead end, the timers store Expired: in at most three reconciles, never early, and
   late by no more than one wake-up may be.
   */
  lemma {:induction false} TimersExpire(st: Status, now: int, p: int, late: nat -> nat, k: nat, slack: nat)
    requires Live(st) && st.expiresAt.value - p <= MAX_DURATION
    requires st.phase != Expiring || st.expiresAt.value <= p + late(k)
    requires forall n: nat :: late(n) <= slack
    ensures var chain := Follow(st, now, Some(p), late, k);
            && chain.expired
            && chain.reconciles <= 3
            && st.expiresAt.value <= chain.at
            && (chain.at <= p + slack || chain.at <= st.expiresAt.value + slack)
    ensures st.expiresAt.value - (p + late(k)) <= EXPIRING_GRACE_WINDOW ==>
              Follow(st, now, Some(p), late, k).reconciles <= 2
    ensures st.expiresAt.value <= p + late(k) ==> Follow(st, now, Some(p), late, k).reconciles == 1
    decreases Measure(st, Some(p))
  {
    var wake := p + late(k);
    if st.expiresAt.value > wake {
      NextIsNearer(st, p, wake);
      TimersExpire(LifecycleOutcome(st, wake), wake, wake + RequeueAfter(st, wake), late, k + 1, slack);
    }
  }

  /**
   Exactly when the timers store Expired: a wake-up is pending, and it does not come upon the dead end, an instance
   that is already Expiring. Inside the grace window that sets no timer at all, and before it only a wake-up that
   oversleeps the whole window still ends the instance.
   */
  lemma {:induction false} TimersExpireExactly(st: Status, now: int, pending: Option<int>, late: nat -> nat, k: nat)
    requires Live(st) && (pending.Some? ==> st.expiresAt.value - pending.value <= MAX_DURATION)
    ensures Follow(st, now, pending, late, k).expired <==>
              && pending.Some?
              && var left := st.expiresAt.value - (pending.value + late(k));
                 || st.phase != Expiring
                 || left <= 0
                 || (left > EXPIRING_GRACE_WINDOW && late(k + 1) >= EXPIRING_GRACE_WINDOW)
    decreases Measure(st, pending)
  {
    if pending.Some? {
      var wake := pending.value + late(k);
      if LifecycleOutcome(st, wake).phase != Expired {
        NextIsNearer(st, pending.value, wake);
        TimersExpireExactly(LifecycleOutcome(st, wake), wake, PendingAfter(st, wake, None), late, k + 1);
      }
    }
  }

  // ----- Another reconcile first

  /** A reconcile at `now` that no timer gave rise to, and then the timers. */
  ghost function LookAndFollow(st: Status, now: int, pending: Option<int>, late: nat -> nat): Chain
    requires Live(st)
  {
    var next := LifecycleOutcome(st, now);
    if next.phase == Expired then Chain(1, true, now)
    else
      var rest := Follow(next, now, PendingAfter(st, now, pending), late, 0);
      rest.(reconciles := rest.reconciles + 1)
  }

  /**
   Exactly when a reconcile that an event, or a restart, gives rise to leads to Expired by the timers: always outside
   the grace window; inside it, without a pending wake-up, exactly if it is the one to store Expiring, and with one
   exactly if that wake-up does not come before the end, since it keeps the queue from holding a later one.
   */
  lemma LookExpiresExactly(st: Status, now: int, pending: Option<int>, late: nat -> nat)
    requires Live(st) && st.expiresAt.value - now <= MAX_DURATION
    requires st.phase == Expiring ==> st.expiresAt.value - now <= EXPIRING_GRACE_WINDOW
    requires pending.Some? ==> now < pending.value
    ensures LookAndFollow(st, now, pending, late).expired <==>
              var left := st.expiresAt.value - now;
              || left <= 0
              || left > EXPIRING_GRACE_WINDOW
              || (if pending.None? then st.phase != Expiring else st.expiresAt.value <= pending.value + late(0))
  {
    var next := LifecycleOutcome(st, now);
    if next.phase != Expired {
      TimersExpireExactly(next, now, PendingAfter(st, now, pending), late, 0);
    }
  }

  // ----- What everything keeps

  /** The pending wake-up will do: it comes at the end or later, or in time to store Expiring with its own timer. */
  predicate Armed(st: Status, pending: Option<int>) {
    && Live(st) && pending.Some?
    && (st.expiresAt.value <= pending.value
        || (st.phase != Expiring && pending.value <= st.expiresAt.value - EXPIRING_GRACE_WINDOW))
  }

  /**
   A reconcile of a live instance, at any time before the pending wake-up or on it, leaves the instance armed or
   Expired; and if the instance is not Expiring, and no wake-up pending that lies too early, it arms it.
   */
  lemma LookKeepsArmed(st: Status, now: int, pending: Option<int>)
    requires Live(st) && st.expiresAt.value - now <= MAX_DURATION
    requires st.phase == Expiring ==> st.expiresAt.value - now <= EXPIRING_GRACE_WINDOW
    ensures var next := LifecycleOutcome(st, now);
            next.phase != Expired ==>
              && (Armed(st, pending) && now < pending.value ==> Armed(next, PendingAfter(st, now, pending)))
              && (Armed(st, pending) && pending.value <= now ==> Armed(next, PendingAfter(st, now, None)))
              && (st.phase != Expiring ==> Armed(next, PendingAfter(st, now, None)))
  {}

  /** No observation of the instance controller disarms a dated instance, unless it ends it. */
  lemma ObservationKeepsArmed(c: Config, w: Write, pending: Option<int>)
    requires ValidWrite(c, w) && WellDated(w.before) && w.cause.Observed? && Armed(w.before, pending)
    ensures w.after.phase == Failed || Armed(w.after, pending)
  {
    WhoWritesWhat(c, w);
    WriteDates(c, w);
  }

  /** An armed instance that is left to the timers expires, within the bounds of TimersExpire. */
  lemma ArmedExpires(st: Status, now: int, pending: Option<int>, late: nat -> nat, slack: nat)
    requires Armed(st, pending) && st.expiresAt.value - pending.value <= MAX_DURATION
    requires forall n: nat :: late(n) <= slack
    ensures var chain := Follow(st, now, pending, late, 0);
            && chain.expired && chain.reconciles <= 3 && st.expiresAt.value <= chain.at
            && (chain.at <= pending.value + slack || chain.at <= st.expiresAt.value + slack)
  {
    TimersExpire(st, now, pending.value, late, 0, slack);
  }

  /**
   Nothing less will do: an instance that is neither armed nor over can be left behind unexpired by the timers, if not
   as it is then after one more reconcile, although every wake-up is on time.
   */
  lemma UnarmedMayBeStranded(st: Status, clock: int, pending: Option<int>) returns (now: int)
    requires Live(st) && clock < st.expiresAt.value <= clock + MAX_DURATION && !Armed(st, pending)
    requires st.phase == Expiring ==> st.expiresAt.value - clock <= EXPIRING_GRACE_WINDOW
    requires pending.Some? ==> clock < pending.value
    ensures clock <= now < st.expiresAt.value && (pending.Some? ==> now < pending.value)
    ensures !Follow(st, clock, pending, k => 0, 0).expired || !LookAndFollow(st, now, pending, k => 0).expired
  {
    var windowStart := st.expiresAt.value - EXPIRING_GRACE_WINDOW;
    now := if clock < windowStart then windowStart else clock;
    TimersExpireExactly(st, clock, pending, k => 0, 0);
    LookExpiresExactly(st, now, pending, k => 0);
  }

  /**
   In any state of any run, with any wake-up still to come: the timers alone store Expired exactly if there is one
   and the instance is not Expiring, or is over when it wakes up; then never early, and at most one wake-up late.
   */
  lemma TimersInRun(c: Config, run: seq<State>, i: nat, pending: Option<int>, late: nat -> nat, slack: nat)
    requires Run(c, run) && i < |run| && (pending.Some? ==> run[i].clock <= pending.value)
    requires forall n: nat :: late(n) <= slack
    ensures run[i].store != []
    ensures var st := StatusAt(run, i);
            Live(st) ==>
              var chain := Follow(st, run[i].clock, pending, late, 0);
              && (chain.expired <==>
                    pending.Some? && (st.phase != Expiring || st.expiresAt.value <= pending.value + late(0)))
              && (chain.expired ==>
                    && chain.reconciles <= 3
                    && st.expiresAt.value <= chain.at
                    && (chain.at <= pending.value + slack || chain.at <= st.expiresAt.value + slack))
  {
    ExpiryIsWithinReach(c, run, i);
    NeverEarly(c, run, i);
    hide Run;
    var st := StatusAt(run, i);
    if Live(st) {
      TimersExpireExactly(st, run[i].clock, pending, late, 0);
      if Follow(st, run[i].clock, pending, late, 0).expired {
        TimersExpire(st, run[i].clock, pending.value, late, 0, slack);
      }
    }
  }

  // ----- The controller itself

  lemma StoredIsWellDated(c: Config, run: seq<State>, k: nat)
    requires Run(c, run) && k < |run|
    ensures run[k].store != [] && WellDated(StatusAt(run, k))
  {
    RunRefinesHistory(c, run, k);
    BeforeWellDated(c, run[k].log, |run[k].log|);
  }

  function Stored(cluster: Cluster): Status
    requires cluster.store != []
    reads cluster`store
  {
    cluster.store[|cluster.store| - 1].status
  }

  /** One undisturbed reconcile from the current version: what it stores, and what the queue holds afterwards. */
  method Look(cluster: Cluster, pending: Option<int>) returns (next: Option<int>)
    requires cluster.Valid()
    modifies cluster`store, cluster`notified, cluster`now, cluster`run
    ensures cluster.Valid() && old(cluster.run) <= cluster.run
    ensures old(cluster.store) != [] && cluster.store != []
    ensures Stored(cluster) == LifecycleOutcome(old(Stored(cluster)), cluster.clock)
    ensures next == PendingAfter(old(Stored(cluster)), cluster.clock, pending)
  {
    ghost var st := Stored(cluster);
    StoredIsWellDated(cluster.c, cluster.run, |cluster.run| - 1);
    var reply := LifecycleReconciler.Reconcile(cluster, Got(|cluster.store| - 1), NoFault);
    assert Persisted(LifecycleOutcome(st, cluster.clock)) == LifecycleOutcome(st, cluster.clock);
    next := Asked(pending, cluster.clock, reply.after);
  }

  /** Look, on a cluster: whatever gave rise to the reconcile, an armed instance stays armed until it is Expired. */
  method LookArmed(cluster: Cluster, pending: Option<int>) returns (next: Option<int>)
    requires cluster.Valid() && cluster.store != [] && Live(Stored(cluster))
    modifies cluster`store, cluster`notified, cluster`now, cluster`run
    ensures cluster.Valid() && old(cluster.run) <= cluster.run
    ensures cluster.store != []
    ensures Stored(cluster).phase != Expired ==>
              var st := old(Stored(cluster));
              && (Armed(st, pending) && cluster.clock < pending.value ==> Armed(Stored(cluster), next))
              && (pending.None? && st.phase != Expiring ==> Armed(Stored(cluster), next))
  {
    ExpiryIsWithinReach(cluster.c, cluster.run, |cluster.run| - 1);
    NeverEarly(cluster.c, cluster.run, |cluster.run| - 1);
    LookKeepsArmed(Stored(cluster), cluster.clock, pending);
    next := Look(cluster, pending);
  }

  /**
   The lifecycle controller runs as often as the timers wake it up, on the stored object, with nobody else at work: what
   happens is what `Follow` says.
   */
  method FollowTimers(cluster: Cluster, wakeUp: Option<int>, late: nat -> nat) returns (reconciles: nat, expired: bool)
    requires cluster.Valid() && cluster.store != [] && Live(Stored(cluster))
    requires wakeUp.Some? ==> cluster.clock <= wakeUp.value
    modifies cluster`store, cluster`notified, cluster`clock, cluster`now, cluster`run
    ensures cluster.Valid() && old(cluster.run) <= cluster.run
    ensures cluster.store != []
    ensures Chain(reconciles, expired, cluster.clock)
            == Follow(old(Stored(cluster)), old(cluster.clock), wakeUp, late, 0)
    ensures expired <==> Stored(cluster).phase == Expired
  {
    hide Cluster.Valid;
    hide Follow;
    hide LifecycleOutcome;
    hide PendingAfter;
    hide Measure;
    ghost var chain := Follow(Stored(cluster), cluster.clock, wakeUp, late, 0);
    reconciles, expired := 0, false;
    var pending := wakeUp;
    while !expired && pending.Some?
      invariant cluster.Valid() && old(cluster.run) <= cluster.run && cluster.store != []
      invariant expired <==> Stored(cluster).phase == Expired
      invariant !expired ==> Live(Stored(cluster)) && (pending.Some? ==> cluster.clock <= pending.value)
      invariant !expired ==> var rest := Follow(Stored(cluster), cluster.clock, pending, late, reconciles);
                             chain == rest.(reconciles := reconciles + rest.reconciles)
      invariant expired ==> chain == Chain(reconciles, true, cluster.clock)
      decreases !expired, Measure(Stored(cluster), pending)
    {
      FollowStep(Stored(cluster), cluster.clock, pending.value, late, reconciles);
      LifecycleReconciler.Elapse(cluster, pending.value + late(reconciles) - cluster.clock);
      pending := Look(cluster, None);
      expired := cluster.store[|cluster.store| - 1].status.phase == Expired;
      reconciles := reconciles + 1;
    }
    if !expired {
      FollowNothing(Stored(cluster), cluster.clock, late, reconciles);
    }
  }

  lemma FollowStep(st: Status, now: int, p: int, late: nat -> nat, k: nat)
    requires Live(st)
    ensures var wake := p + late(k);
            var next, pending := LifecycleOutcome(st, wake), PendingAfter(st, wake, None);
            if next.phase == Expired then Follow(st, now, Some(p), late, k) == Chain(1, true, wake)
            else
              && Live(next) && (pending.Some? ==> wake <= pending.value)
              && Measure(next, pending) < Measure(st, Some(p))
              && var rest := Follow(next, wake, pending, late, k + 1);
                 Follow(st, now, Some(p), late, k) == rest.(reconciles := rest.reconciles + 1)
  {
    if LifecycleOutcome(st, p + late(k)).phase != Expired {
      NextIsNearer(st, p, p + late(k));
    }
  }

  lemma FollowNothing(st: Status, now: int, late: nat -> nat, k: nat)
    requires Live(st)
    ensures Follow(st, now, None, late, k) == Chain(0, false, now)
  {}

  /**
   Wherever its run stands, and whichever wake-up is still to come, a dated and unfinished instance that is left to the
   timers gets to be stored as Expired exactly if there is such a wake-up and the instance is not Expiring, or over when
   it wakes up: within three reconciles, never early, and at most one wake-up late.
   */
  method ExpireByTimers(cluster: Cluster, pending: Option<int>, late: nat -> nat, ghost slack: nat)
    returns (reconciles: nat, expired: bool)
    requires cluster.Valid() && cluster.store != [] && Live(Stored(cluster))
    requires pending.Some? ==> cluster.clock <= pending.value
    requires forall n: nat :: late(n) <= slack
    modifies cluster`store, cluster`notified, cluster`clock, cluster`now, cluster`run
    ensures cluster.Valid() && old(cluster.run) <= cluster.run
    ensures cluster.store != []
    ensures expired <==> Stored(cluster).phase == Expired
    ensures var st := old(Stored(cluster));
            && (expired <==> pending.Some? && (st.phase != Expiring || st.expiresAt.value <= pending.value + late(0)))
            && (expired ==>
                  && reconciles <= 3
                  && st.expiresAt.value <= cluster.clock
                  && (cluster.clock <= pending.value + slack || cluster.clock <= st.expiresAt.value + slack))
  {
    TimersInRun(cluster.c, cluster.run, |cluster.run| - 1, pending, late, slack);
    hide Follow;
    reconciles, expired := FollowTimers(cluster, pending, late);
  }
}
