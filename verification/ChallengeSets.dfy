/** The schedule of a challenge set: a stored flag that has to agree with a window of time. */
module ChallengeSets {
  import opened Common
  import opened Time
  import opened Calls

  /** The schedule of a set, as parsed: RFC 3339 parsing (section 5.6 of RFC 3339) itself is not modelled. */
  datatype Schedule = Schedule(startAt: Result<int, string>, endAt: Result<int, string>)

  const DEFAULT_SET_REQUEUE: int := 30 * SECOND

  /** When a set is meant to be active: always without a schedule, never with one that cannot be read. */
  predicate ShouldBeActive(schedule: Option<Schedule>, t: int) {
    match schedule
    case None => true
    case Some(Schedule(Ok(start), Ok(end))) => start <= t < end
    case _ => false
  }

  datatype Decision = Decision(active: bool, message: string, requeueAfter: int)

  function Decide(schedule: Option<Schedule>, now: int): (d: Decision)
    ensures d.active == ShouldBeActive(schedule, now)
    ensures d.requeueAfter > 0
    ensures forall t :: now <= t < now + d.requeueAfter ==> ShouldBeActive(schedule, t) == d.active
  {
    match schedule
    case None => Decision(true, "", DEFAULT_SET_REQUEUE)
    case Some(Schedule(Err(e), _)) => Decision(false, "invalid schedule.startAt: " + e, DEFAULT_SET_REQUEUE)
    case Some(Schedule(Ok(_), Err(e))) => Decision(false, "invalid schedule.endAt: " + e, DEFAULT_SET_REQUEUE)
    case Some(Schedule(Ok(start), Ok(end))) =>
      if now < start then Decision(false, "waiting for schedule to start", Sub(start, now))
      else if now < end then Decision(true, "", Sub(end, now))
      else Decision(false, "schedule ended", DEFAULT_SET_REQUEUE)
  }

  /**
   What is stored and asked for in each case: inside a readable window the wake-up is at its end, before it at its
   start, and otherwise in 30 seconds.
   */
  lemma DecideMeaning(schedule: Option<Schedule>, now: int)
    ensures Decide(schedule, now).active <==>
              || schedule == None
              || (schedule.value.startAt.Ok? && schedule.value.endAt.Ok?
                  && schedule.value.startAt.value <= now < schedule.value.endAt.value)
    ensures var d := Decide(schedule, now);
            match schedule
            case None => d.message == "" && d.requeueAfter == 30_000_000_000
            case Some(Schedule(Err(e), _)) =>
              d.message == "invalid schedule.startAt: " + e && d.requeueAfter == 30_000_000_000
            case Some(Schedule(Ok(_), Err(e))) =>
              d.message == "invalid schedule.endAt: " + e && d.requeueAfter == 30_000_000_000
            case Some(Schedule(Ok(start), Ok(end))) =>
              && (now < start ==>
                    d.message == "waiting for schedule to start"
                    && (start - now <= MAX_DURATION ==> now + d.requeueAfter == start))
              && (start <= now < end ==> d.message == "" && (end - now <= MAX_DURATION ==> now + d.requeueAfter == end))
              && (start <= now && end <= now ==> d.message == "schedule ended" && d.requeueAfter == 30_000_000_000)
  {}

  /** The stored object; its version counts the status updates that changed it. */
  class ChallengeSet {
    const schedule: Option<Schedule>
    var active: bool
    var message: string
    var version: nat

    constructor (schedule: Option<Schedule>)
      ensures this.schedule == schedule && !active && message == "" && version == 0
    {
      this.schedule := schedule;
      active, message, version := false, "", 0;
    }

    /** setStatus, on a copy read at some version: the update is refused unless that version is the current one. */
    method SetStatus(read: nat, active: bool, message: string, requeueAfter: int, fault: Fault) returns (reply: Reply)
      modifies this
      ensures reply == if read == old(version) && fault == NoFault then Requeue(requeueAfter) else Error
      ensures (this.active, this.message) == if read == old(version) && fault != Refused then (active, message)
                                             else (old(this.active), old(this.message))
      ensures old(version) <= version
      ensures version == old(version) <==> this.active == old(this.active) && this.message == old(this.message)
    {
      if read != version || fault == Refused {
        return Error;
      }
      if this.active != active || this.message != message {
        this.active := active;
        this.message := message;
        version := version + 1;
      }
      return if fault == NoFault then Requeue(requeueAfter) else Error;
    }

    /**
     Stores the decision for its time, unless the set is gone or unreadable, the copy stale, or the update refused;
     then the stored status stays as it is.
     */
    method Reconcile(get: Fetch<nat>, now: int, fault: Fault) returns (reply: Reply)
      modifies this
      ensures get == Absent ==> reply == Requeue(0)
      ensures get == Unreadable ==> reply == Error
      ensures get.Got? ==>
                reply == if get.value != old(version) || fault != NoFault then Error
                         else Requeue(Decide(schedule, now).requeueAfter)
      ensures if get == Got(old(version)) && fault != Refused then
                active == ShouldBeActive(schedule, now) && message == Decide(schedule, now).message
              else active == old(active) && message == old(message) && version == old(version)
    {
      match get {
        case Absent => return Requeue(0);
        case Unreadable => return Error;
        case Got(read) =>
          if schedule == None {
            reply := SetStatus(read, true, "", DEFAULT_SET_REQUEUE, fault);
            return;
          }
          var startAt := schedule.value.startAt;
          if startAt.Err? {
            reply := SetStatus(read, false, "invalid schedule.startAt: " + startAt.error, DEFAULT_SET_REQUEUE, fault);
            return;
          }
          var endAt := schedule.value.endAt;
          if endAt.Err? {
            reply := SetStatus(read, false, "invalid schedule.endAt: " + endAt.error, DEFAULT_SET_REQUEUE, fault);
            return;
          }
          if now < startAt.value {
            reply := SetStatus(read, false, "waiting for schedule to start", Sub(startAt.value, now), fault);
          } else if now < endAt.value {
            reply := SetStatus(read, true, "", Sub(endAt.value, now), fault);
          } else {
            reply := SetStatus(read, false, "schedule ended", DEFAULT_SET_REQUEUE, fault);
          }
      }
    }
  }

  /**
   The flag stored at time t, when the set was first reconciled at `now` and then whenever a requested delay ran out,
   the k-th time late by late(k). A reconcile that fails is repeated, so its failures count as lateness.
   */
  ghost function StoredActive(schedule: Option<Schedule>, now: int, late: nat -> nat, k: nat, t: int): bool
    requires now <= t
    decreases t - now
  {
    var d := Decide(schedule, now);
    var wake := now + d.requeueAfter + late(k);
    if t < wake then d.active else StoredActive(schedule, wake, late, k + 1, t)
  }

  /** The stored flag is what the window called for at some instant no longer ago than a wake-up may be late. */
  lemma {:induction false} FlagIsRecent(schedule: Option<Schedule>, now: int, late: nat -> nat, k: nat,
        t: int, slack: nat)
    returns (u: int)
    requires now <= t && forall n: nat :: late(n) <= slack
    ensures now <= u <= t && t - slack <= u
    ensures StoredActive(schedule, now, late, k, t) == ShouldBeActive(schedule, u)
    decreases t - now
  {
    var d := Decide(schedule, now);
    var wake := now + d.requeueAfter + late(k);
    if t < now + d.requeueAfter {
      u := t;
    } else if t < wake {
      u := now + d.requeueAfter - 1;
    } else {
      u := FlagIsRecent(schedule, wake, late, k + 1, t, slack);
    }
  }

  /** With wake-ups on time the stored flag is right at every instant, for inverted and empty windows too. */
  lemma FlagIsRight(schedule: Option<Schedule>, now: int, t: int)
    requires now <= t
    ensures StoredActive(schedule, now, k => 0, 0, t) == ShouldBeActive(schedule, t)
  {
    var u := FlagIsRecent(schedule, now, k => 0, 0, t, 0);
  }

  /**
   The controller at work on the stored object from `now` to `until`: each reconcile is the wake-up that the one before
   asked for. The flag is then what the window called for at an instant no longer ago than a wake-up may be late.
   */
  method KeepFlag(challenges: ChallengeSet, now: int, until: int, late: nat -> nat, ghost slack: nat)
    returns (ghost u: int)
    requires now <= until && forall n: nat :: late(n) <= slack
    modifies challenges
    ensures challenges.active == StoredActive(challenges.schedule, now, late, 0, until)
    ensures now <= u <= until && until - slack <= u
    ensures challenges.active == ShouldBeActive(challenges.schedule, u)
  {
    var at, k := now, 0;
    var reply := challenges.Reconcile(Got(challenges.version), at, NoFault);
    while at + reply.after + late(k) <= until
      invariant at <= until
      invariant reply == Requeue(Decide(challenges.schedule, at).requeueAfter)
      invariant challenges.active == Decide(challenges.schedule, at).active
      invariant StoredActive(challenges.schedule, at, late, k, until)
                == StoredActive(challenges.schedule, now, late, 0, until)
      decreases until - at
    {
      at, k := at + reply.after + late(k), k + 1;
      reply := challenges.Reconcile(Got(challenges.version), at, NoFault);
    }
    u := FlagIsRecent(challenges.schedule, now, late, 0, until, slack);
  }
}
