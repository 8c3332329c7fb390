/**
 Histories of accepted status writes. A history is valid when each write was computed, by the
 code of its controller, from exactly the status that the write before it left behind.
 */
module History {
  import opened Common
  import opened Time
  import opened ApiTypes
  import opened Instances

  /** The latest instant at which the reconcile looked at the clock before it wrote. */
  function Looked(cause: Cause, otherwise: int): int {
    match cause
    case Elapsed(now) => now
    case Observed(Pods(_, now, _)) => now
    case _ => otherwise
  }

  ghost predicate ValidWrite(c: Config, w: Write) {
    && Justified(c, w.spec, w.before, w.cause)
    && w.after == Persisted(Outcome(c, w.spec, w.before, w.cause))
    && Looked(w.cause, w.at) <= w.at
  }

  function Latest(log: seq<Write>): Status {
    if log == [] then EMPTY_STATUS else log[|log| - 1].after
  }

  /** The status that the k-th write must start from. */
  function Before(log: seq<Write>, k: nat): Status
    requires k <= |log|
  {
    if k == 0 then EMPTY_STATUS else log[k - 1].after
  }

  ghost predicate Valid(c: Config, log: seq<Write>) {
    && (forall k {:trigger ValidWrite(c, log[k])} :: 0 <= k < |log| ==> ValidWrite(c, log[k]))
    && (forall k {:trigger Before(log, k)} :: 0 <= k < |log| ==> log[k].before == Before(log, k))
    && (forall j, k :: 0 <= j < k < |log| ==> log[j].at <= log[k].at)
  }

  lemma ValidAppend(c: Config, log: seq<Write>, w: Write)
    requires Valid(c, log) && ValidWrite(c, w)
    requires w.before == Latest(log) && (log != [] ==> log[|log| - 1].at <= w.at)
    ensures Valid(c, log + [w])
  {
    hide ValidWrite;
    var more := log + [w];
    forall k | 0 <= k < |more| ensures ValidWrite(c, more[k]) && more[k].before == Before(more, k) {
      assert k < |log| ==> ValidWrite(c, log[k]) && log[k].before == Before(log, k);
    }
  }

  // ----- Phases

  lemma NextStarts(c: Config, log: seq<Write>, k: nat)
    requires Valid(c, log) && k < |log|
    ensures log[k].before == Before(log, k) && !Terminal(Before(log, k).phase)
  {
    assert ValidWrite(c, log[k]) && log[k].before == Before(log, k);
  }

  /** A terminal status ends its history: no write is accepted after it. */
  lemma TerminalIsLast(c: Config, log: seq<Write>, k: nat)
    requires Valid(c, log) && k < |log| && Terminal(log[k].after.phase)
    ensures k == |log| - 1
  {
    if k + 1 < |log| {
      NextStarts(c, log, k + 1);
    }
  }

  /** Which controller writes which phase; Unset and Terminating are never written. */
  lemma WhoWritesWhat(c: Config, w: Write)
    requires ValidWrite(c, w)
    ensures && w.after.phase !in {Unset, Terminating}
            && (w.after.phase in {Expiring, Expired} <==> w.cause.Elapsed?)
            && (w.after.phase in {Creating, Running, Unhealthy} ==> w.cause.Observed? && w.cause.seen.Pods?)
            && (w.cause.Elapsed? ==> w.before.phase != w.after.phase)
  {}

  /** Why an accepted write stored the phase it did. */
  lemma WhyThisPhase(c: Config, w: Write)
    requires ValidWrite(c, w)
    ensures w.after.phase == Pending <==> w.cause == Observed(TemplateNotReady)
    ensures w.after.phase == Failed <==>
              && w.cause.Observed?
              && (w.cause.seen == TemplateMissing
                  || w.cause.seen.InvalidTtl?
                  || (exists reason :: SawHealth(w, PodHasFailed(reason))))
    ensures w.after.phase == Creating <==>
              || SawHealth(w, NoPod) || SawHealth(w, PodNotStarted)
              || (SawHealth(w, PodIsUnready) && w.after.unhealthyCount < EffectiveThreshold(w.cause.seen.tmpl))
    ensures w.after.phase == Expired <==> w.cause.Elapsed? && w.before.expiresAt.value <= w.cause.now
    ensures w.after.phase == Expiring <==>
              && w.cause.Elapsed? && w.before.phase != Expiring
              && 0 < w.before.expiresAt.value - w.cause.now <= 60_000_000_000
  {
    if w.cause.Observed? && w.cause.seen.Pods? {
      var h := Observe(w.cause.seen.pods);
      forall other { ObserveMeaning(w.cause.seen.pods, other); }
      assert SawHealth(w, h);
    }
  }

  /** The lifecycle rules in numbers: when they store what, with which event, and when they ask to run again. */
  lemma LifecycleMeaning(st: Status, now: int)
    ensures st.phase in {Expired, Failed} || st.expiresAt == None ==> Lifecycle(st, now) == Wait(30_000_000_000)
    ensures st.phase !in {Expired, Failed} && st.expiresAt.Some? ==>
              var left := st.expiresAt.value - now;
              && (left <= 0 ==> Lifecycle(st, now) == Move(Expired, "TTL expired", EventExpired, 60_000_000_000))
              && (0 < left <= 60_000_000_000 && st.phase != Expiring ==>
                    Lifecycle(st, now) == Move(Expiring, "entering expiry grace window", EventExpiring, left))
              && (0 < left <= 60_000_000_000 && st.phase == Expiring ==>
                    Lifecycle(st, now).Wait? && Lifecycle(st, now).requeueAfter <= 0)
              && (60_000_000_000 < left <= 0x7FFF_FFFF_FFFF_FFFF ==> Lifecycle(st, now) == Wait(left - 60_000_000_000))
  {}

  /**
   Expiring ends in Expired exactly if the next write is the lifecycle controller's; any write of the instance
   controller takes the instance out of Expiring.
   */
  lemma ExpiringEndsExactly(c: Config, w: Write)
    requires ValidWrite(c, w) && w.before.phase == Expiring
    ensures w.after.phase == Expired <==> w.cause.Elapsed?
    ensures w.after.phase in {Pending, Creating, Running, Unhealthy, Failed} <==> w.cause.Observed?
  {
    WhoWritesWhat(c, w);
    WhyThisPhase(c, w);
  }

  // ----- The time to live

  ghost predicate SameDates(s: Status, t: Status) {
    s.startedAt == t.startedAt && s.expiresAt == t.expiresAt
  }

  lemma TruncatedTwice(t: int)
    ensures Truncated(Truncated(t)) == Truncated(t)
  {}

  /** Stored statuses carry whole seconds only, and both dates or neither. */
  ghost predicate WellDated(st: Status) {
    && st.startedAt.Some? == st.expiresAt.Some?
    && (st.startedAt.Some? ==> Truncated(st.startedAt.value) == st.startedAt.value)
    && (st.expiresAt.Some? ==> Truncated(st.expiresAt.value) == st.expiresAt.value)
  }

  /**
   The reconcile observed the pods, and `d` is the duration of the override it saw or, without one, of the
   template's TTL.
   */
  ghost predicate Dates(c: Config, w: Write, d: Duration) {
    && w.cause.Observed? && w.cause.seen.Pods?
    && (w.spec.ttlOverride != "" ==> c.parse(w.spec.ttlOverride) == Some(d))
    && (w.spec.ttlOverride == "" ==> c.parse(w.cause.seen.tmpl.ttl) == Some(d))
    && w.after.startedAt == Some(Truncated(w.cause.seen.now))
    && w.after.expiresAt == Some(Truncated(w.cause.seen.now + d))
  }

  lemma WriteDates(c: Config, w: Write)
    requires ValidWrite(c, w) && WellDated(w.before)
    ensures WellDated(w.after)
    ensures w.before.expiresAt.Some? ==> SameDates(w.before, w.after)
    ensures w.before.expiresAt.None? && w.after.expiresAt.Some? ==> exists d: Duration :: Dates(c, w, d)
  {
    if w.before.expiresAt.None? && w.after.expiresAt.Some? {
      var seen := w.cause.seen;
      var d := c.parse(TimeToLive(w.spec, seen.tmpl)).value;
      TruncatedTwice(seen.now);
      TruncatedTwice(seen.now + d);
      assert Dates(c, w, d);
    }
  }

  lemma {:induction false} BeforeWellDated(c: Config, log: seq<Write>, n: nat)
    requires Valid(c, log) && n <= |log|
    ensures WellDated(Before(log, n))
  {
    if n > 0 {
      BeforeWellDated(c, log, n - 1);
      NextStarts(c, log, n - 1);
      assert ValidWrite(c, log[n - 1]);
      WriteDates(c, log[n - 1]);
    }
  }

  /** Once set, the two dates survive every later write. */
  lemma {:induction false} DatesLast(c: Config, log: seq<Write>, n: nat, m: nat)
    requires Valid(c, log) && n <= m <= |log| && Before(log, n).expiresAt.Some?
    ensures SameDates(Before(log, n), Before(log, m))
    decreases m
  {
    if n < m {
      DatesLast(c, log, n, m - 1);
      BeforeWellDated(c, log, m - 1);
      NextStarts(c, log, m - 1);
      assert ValidWrite(c, log[m - 1]);
      WriteDates(c, log[m - 1]);
    }
  }

  /** A dated history has exactly one write that set the dates; it set both, from the clock and the TTL it saw. */
  lemma {:induction false} DatedOnce(c: Config, log: seq<Write>, n: nat) returns (k: nat, d: Duration)
    requires Valid(c, log) && n <= |log| && Before(log, n).expiresAt.Some?
    ensures k < n && Dates(c, log[k], d)
    ensures forall j :: 0 <= j < k ==> log[j].after.startedAt.None? && log[j].after.expiresAt.None?
    ensures forall j :: k <= j < |log| ==> SameDates(log[j].after, Before(log, n))
  {
    if Before(log, n - 1).expiresAt.Some? {
      k, d := DatedOnce(c, log, n - 1);
      DatesLast(c, log, n - 1, n);
    } else {
      k := n - 1;
      BeforeWellDated(c, log, k);
      NextStarts(c, log, k);
      assert ValidWrite(c, log[k]);
      WriteDates(c, log[k]);
      d :| Dates(c, log[k], d);
      forall j | 0 <= j < k ensures log[j].after.startedAt.None? && log[j].after.expiresAt.None? {
        BeforeWellDated(c, log, j + 1);
        if log[j].after.expiresAt.Some? {
          DatesLast(c, log, j + 1, k);
        }
      }
      forall j | k <= j < |log| ensures SameDates(log[j].after, Before(log, n)) {
        DatesLast(c, log, n, j + 1);
      }
    }
  }

  /** Truncation costs less than a second, and nothing exactly when the duration is a whole number of seconds. */
  lemma StoredLifetime(now: int, d: int)
    ensures -SECOND < (Truncated(now + d) - Truncated(now)) - d < SECOND
    ensures Truncated(now + d) - Truncated(now) == d <==> d % SECOND == 0
  {}

  /** Never early: a stored Expired or Expiring was written no sooner than the expiry allows. */
  lemma NotEarly(c: Config, log: seq<Write>)
    requires Valid(c, log) && log != [] && Latest(log).phase in {Expiring, Expired}
    ensures Latest(log).expiresAt.Some?
    ensures Latest(log).phase == Expired ==> Latest(log).expiresAt.value <= log[|log| - 1].at
    ensures Latest(log).phase == Expiring ==>
              Latest(log).expiresAt.value - EXPIRING_GRACE_WINDOW <= log[|log| - 1].at
  {
    assert ValidWrite(c, log[|log| - 1]);
    WhoWritesWhat(c, log[|log| - 1]);
  }

  /** Every phase beyond Pending, short of Failed, carries an expiry. */
  lemma ActiveIsDated(c: Config, log: seq<Write>)
    requires Valid(c, log) && Latest(log).phase in {Creating, Running, Unhealthy, Expiring, Expired}
    ensures Latest(log).expiresAt.Some?
  {
    assert ValidWrite(c, log[|log| - 1]);
    WhoWritesWhat(c, log[|log| - 1]);
  }

  // ----- The health counter

  /** The pod has a condition "Ready", and its first one is True. */
  ghost predicate FirstReadyIsTrue(pod: Pod) {
    exists i ::
      && 0 <= i < |pod.conditions| && pod.conditions[i] == Condition("Ready", ConditionTrue)
      && forall j :: 0 <= j < i ==> pod.conditions[j].kind != "Ready"
  }

  /** Only the first Ready condition of a pod counts, and it has to be True. */
  lemma {:induction false} PodReadyMeaning(conditions: seq<Condition>)
    ensures PodReady(conditions) <==>
              exists i ::
                && 0 <= i < |conditions| && conditions[i] == Condition("Ready", ConditionTrue)
                && forall j :: 0 <= j < i ==> conditions[j].kind != "Ready"
  {
    if conditions != [] && conditions[0].kind != "Ready" {
      var rest := conditions[1..];
      PodReadyMeaning(rest);
      if PodReady(rest) {
        var i :| 0 <= i < |rest| && rest[i] == Condition("Ready", ConditionTrue)
                 && forall j :: 0 <= j < i ==> rest[j].kind != "Ready";
        assert conditions[i + 1] == rest[i];
        assert forall j :: 0 < j < i + 1 ==> conditions[j] == rest[j - 1];
      }
      if i :| 0 <= i < |conditions| && conditions[i] == Condition("Ready", ConditionTrue)
              && forall j :: 0 <= j < i ==> conditions[j].kind != "Ready" {
        assert rest[i - 1] == conditions[i];
        assert forall j :: 0 <= j < i - 1 ==> rest[j] == conditions[j + 1];
      }
    }
  }

  /** What a list of pods shows, in terms of its first pod. */
  ghost predicate Shows(pods: seq<Pod>, h: Health) {
    match h
    case NoPod => pods == []
    case PodHasFailed(reason) => pods != [] && pods[0].phase == PodFailed && pods[0].reason == reason
    case PodIsReady => pods != [] && pods[0].phase == PodRunning && FirstReadyIsTrue(pods[0])
    case PodIsUnready => pods != [] && pods[0].phase == PodRunning && !FirstReadyIsTrue(pods[0])
    case PodNotStarted => pods != [] && pods[0].phase in {PodPending, PodSucceeded, PodUnknown}
  }

  /** Every list shows one thing, and that is what determinePhase makes of it. */
  lemma ObserveMeaning(pods: seq<Pod>, h: Health)
    ensures Observe(pods) == h <==> Shows(pods, h)
  {
    if pods != [] {
      PodReadyMeaning(pods[0].conditions);
    }
  }

  ghost predicate SawHealth(w: Write, h: Health) {
    w.cause.Observed? && w.cause.seen.Pods? && Shows(w.cause.seen.pods, h)
  }

  /** How many accepted writes saw a running but unready pod since the last one that saw a ready pod. */
  ghost function UnreadyRun(log: seq<Write>): nat {
    if log == [] then 0
    else
      var w := log[|log| - 1];
      var earlier := log[..|log| - 1];
      if SawHealth(w, PodIsReady) then 0
      else if SawHealth(w, PodIsUnready) then UnreadyRun(earlier) + 1
      else UnreadyRun(earlier)
  }

  /** The counter is the int32 that agrees with the run modulo 2^32. */
  lemma WrapMeaning(n: int)
    ensures -0x8000_0000 <= Wrap32(n) <= 0x7FFF_FFFF && (Wrap32(n) - n) % 0x1_0000_0000 == 0
  {}

  lemma WrapOnce(n: int)
    ensures Wrap32(Wrap32(n) + 1) == Wrap32(n + 1)
  {}

  /** What a single write does to the counter and, from it, to the phase. */
  lemma WriteCounts(c: Config, w: Write)
    requires ValidWrite(c, w)
    ensures w.after.unhealthyCount ==
            if SawHealth(w, PodIsReady) then 0
            else if SawHealth(w, PodIsUnready) then Wrap32(w.before.unhealthyCount + 1)
            else w.before.unhealthyCount
    ensures w.after.phase == Running <==> SawHealth(w, PodIsReady)
    ensures w.after.phase == Unhealthy <==>
            && SawHealth(w, PodIsUnready)
            && var threshold := w.cause.seen.tmpl.unhealthyThreshold;
               w.after.unhealthyCount >= if threshold == 0 then 3 else threshold
  {
    if w.cause.Observed? && w.cause.seen.Pods? {
      ObserveMeaning(w.cause.seen.pods, PodIsReady);
      ObserveMeaning(w.cause.seen.pods, PodIsUnready);
    }
  }

  /** The stored counter is the length of the unready run, as an int32. */
  lemma {:induction false} CounterCountsUnreadyRun(c: Config, log: seq<Write>, n: nat)
    requires Valid(c, log) && n <= |log|
    ensures Before(log, n).unhealthyCount == Wrap32(UnreadyRun(log[..n]))
  {
    hide Observe;
    hide Outcome;
    if n > 0 {
      CounterCountsUnreadyRun(c, log, n - 1);
      assert log[..n][..n - 1] == log[..n - 1];
      NextStarts(c, log, n - 1);
      assert ValidWrite(c, log[n - 1]);
      WriteCounts(c, log[n - 1]);
      WrapOnce(UnreadyRun(log[..n - 1]));
    }
  }

  /**
   The k-th write makes the instance Unhealthy exactly when it saw an unready pod and the unready run,
   that observation included, has reached the threshold it saw. Runs beyond the int32 range count modulo 2^32.
   */
  lemma UnhealthyExactlyAtThreshold(c: Config, log: seq<Write>, k: nat)
    requires Valid(c, log) && k < |log|
    ensures log[k].after.phase == Unhealthy <==>
            && SawHealth(log[k], PodIsUnready)
            && Wrap32(UnreadyRun(log[..k + 1])) >= EffectiveThreshold(log[k].cause.seen.tmpl)
    ensures log[k].after.phase == Running <==> SawHealth(log[k], PodIsReady)
    ensures log[k].after.phase == Running ==> log[k].after.unhealthyCount == 0
  {
    CounterCountsUnreadyRun(c, log, k + 1);
    assert ValidWrite(c, log[k]);
    WriteCounts(c, log[k]);
  }

  /** The writes from the j-th on, up to the k-th, that saw a running but unready pod. */
  ghost function UnreadyWrites(log: seq<Write>, j: nat, k: nat): set<nat>
    requires k <= |log|
  {
    set i: nat | j <= i < k && SawHealth(log[i], PodIsUnready)
  }

  lemma OneMoreUnready(log: seq<Write>, j: nat, k: nat)
    requires j < k <= |log|
    ensures |UnreadyWrites(log, j, k)|
            == |UnreadyWrites(log, j, k - 1)| + if SawHealth(log[k - 1], PodIsUnready) then 1 else 0
  {
    hide SawHealth;
    assert UnreadyWrites(log, j, k) ==
           UnreadyWrites(log, j, k - 1) + if SawHealth(log[k - 1], PodIsUnready) then {k - 1} else {};
  }

  /**
   Counted from the last write that saw a ready pod, or from the beginning, the unready run is just their number.
   */
  lemma {:induction false} UnreadyRunIsACount(log: seq<Write>, j: nat, k: nat)
    requires j <= k <= |log|
    requires j == 0 || SawHealth(log[j - 1], PodIsReady)
    requires forall i :: j <= i < k ==> !SawHealth(log[i], PodIsReady)
    ensures UnreadyRun(log[..k]) == |UnreadyWrites(log, j, k)|
  {
    hide SawHealth;
    if k > 0 {
      assert log[..k][..k - 1] == log[..k - 1];
    }
    if j < k {
      UnreadyRunIsACount(log, j, k - 1);
      OneMoreUnready(log, j, k);
    } else {
      assert UnreadyWrites(log, j, k) == {};
    }
  }

  /**
   So, short of the int32 limit, it is the threshold-th unready observation since the last ready one that first
   gives Unhealthy.
   */
  lemma UnhealthyAfterThreshold(c: Config, log: seq<Write>, j: nat, k: nat)
    requires Valid(c, log) && j <= k < |log|
    requires j == 0 || SawHealth(log[j - 1], PodIsReady)
    requires forall i :: j <= i <= k ==> !SawHealth(log[i], PodIsReady)
    requires |UnreadyWrites(log, j, k + 1)| <= 0x7FFF_FFFF
    ensures log[k].after.phase == Unhealthy <==>
              && log[k].cause.Observed? && log[k].cause.seen.Pods?
              && var pods, threshold := log[k].cause.seen.pods, log[k].cause.seen.tmpl.unhealthyThreshold;
                 && pods != [] && pods[0].phase == PodRunning && !FirstReadyIsTrue(pods[0])
                 && |UnreadyWrites(log, j, k + 1)| >= if threshold == 0 then 3 else threshold
  {
    UnhealthyExactlyAtThreshold(c, log, k);
    UnreadyRunIsACount(log, j, k + 1);
  }

  /** Straight from Running to Unhealthy: only with a threshold of at most one. */
  lemma RunningToUnhealthy(c: Config, log: seq<Write>, k: nat)
    requires Valid(c, log) && k < |log| && log[k].before.phase == Running
    ensures log[k].before.unhealthyCount == 0
    ensures log[k].after.phase == Unhealthy <==>
            SawHealth(log[k], PodIsUnready) && EffectiveThreshold(log[k].cause.seen.tmpl) <= 1
  {
    NextStarts(c, log, k);
    assert ValidWrite(c, log[k - 1]) && ValidWrite(c, log[k]);
    hide ValidWrite;
    hide SawHealth;
    WriteCounts(c, log[k - 1]);
    WriteCounts(c, log[k]);
    ReadyOrNot(log[k]);
  }

  lemma ReadyOrNot(w: Write)
    ensures !(SawHealth(w, PodIsReady) && SawHealth(w, PodIsUnready))
  {}
}
