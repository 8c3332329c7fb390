/** The lifecycle controller, and the two other ways in which an instance is acted upon: time and extend requests. */
module LifecycleReconciler {
  import opened Common
  import opened Time
  import opened ApiTypes
  import opened Calls
  import opened Instances
  import P = Protocol
  import opened ApiServer

  /** The update was submitted from one version, and its event is announced exactly if it is reported as accepted. */
  ghost predicate Submitted(cluster: Cluster, version: nat, outcome: Status, event: Event, fault: Fault,
                            store: seq<Instance>, notified: seq<Event>)
    reads cluster`store, cluster`notified
    requires store != []
  {
    var accepted := version + 1 == |store| && fault == NoFault;
    && cluster.store == StoreAfterStatus(store, version, outcome, fault)
    && cluster.notified == notified + if accepted && cluster.c.backend then [event] else []
  }

  /** notifyAndSetPhase: announces the phase whether or not it is new, once the update is accepted. */
  method NotifyAndSetPhase(cluster: Cluster, inst: ChallengeInstance, phase: Phase, reason: string, kind: EventType,
                           requeueAfter: int, fault: Fault, ghost i: nat)
    returns (reply: Reply)
    requires cluster.Valid() && P.At(cluster.now, i)
    requires cluster.now.workers[i] == P.SetPhase(cluster.c, inst.Copy(), phase, reason, kind, cluster.clock)
    modifies cluster`store, cluster`notified, cluster`now, cluster`run, inst`status
    ensures cluster.Valid() && old(cluster.run) <= cluster.run
    ensures inst.status == MovedTo(old(inst.status), phase, reason)
    ensures reply == if inst.version + 1 == |old(cluster.store)| && fault == NoFault
                     then Requeue(requeueAfter) else Error
    ensures Submitted(cluster, inst.version, inst.status, MakeEvent(cluster.c, inst.spec, inst.status, kind), fault,
                      old(cluster.store), old(cluster.notified))
    ensures reply != Error && cluster.c.backend ==>
              && |cluster.notified| == |old(cluster.notified)| + 1 && old(cluster.notified) <= cluster.notified
              && var event := cluster.notified[|old(cluster.notified)|];
                 && event.instance == cluster.c.name && event.challenge == inst.spec.templateRef
                 && event.team == inst.spec.team && event.player == inst.spec.player
                 && event.endpoint == old(inst.status).endpoint && event.reason == reason
                 && event.kind == kind
  {
    inst.status := inst.status.(phase := phase);
    inst.status := inst.status.(reason := reason);
    var ok := Persist(cluster, inst, fault, i);
    if !ok {
      GiveUp(cluster, i);
      return Error;
    }
    if cluster.c.backend {
      Announce(cluster, MakeEvent(cluster.c, inst.spec, inst.status, kind), i);
    }
    return Requeue(requeueAfter);
  }

  /** The steps up to the switch: the object is read, and then the clock. */
  ghost method Look(cluster: Cluster, version: nat) returns (i: nat)
    requires cluster.Valid() && version < |cluster.store|
    modifies cluster`now, cluster`run
    ensures cluster.Valid() && old(cluster.run) <= cluster.run
    ensures P.At(cluster.now, i)
    ensures var fetched := cluster.store[version];
            match Lifecycle(fetched.status, cluster.clock)
            case Wait(_) => true
            case Move(phase, reason, kind, _) =>
              cluster.now.workers[i]
              == P.SetPhase(cluster.c, P.Copy(version, fetched.spec, fetched.status),
                            phase, reason, kind, cluster.clock)
  {
    hide P.Run;
    i := |cluster.now.workers|;
    cluster.Take(P.StartLifecycle(version));
    cluster.Take(P.CheckExpiry(i));
  }

  /**
   One reconcile of the lifecycle controller, from whichever version the cache returns. It performs steps of the
   protocol only, so it prolongs the run that the cluster was in.
   */
  method Reconcile(cluster: Cluster, get: Fetch<nat>, fault: Fault) returns (reply: Reply)
    requires cluster.Valid() && (get.Got? ==> get.value < |cluster.store|)
    modifies cluster`store, cluster`notified, cluster`now, cluster`run
    ensures cluster.Valid() && old(cluster.run) <= cluster.run
    ensures get == Absent ==> reply == Requeue(0)
    ensures get == Unreadable ==> reply == Error
    ensures !get.Got? ==> cluster.store == old(cluster.store) && cluster.notified == old(cluster.notified)
    ensures get.Got? ==>
              var fetched := old(cluster.store)[get.value];
              match Lifecycle(fetched.status, cluster.clock)
              case Wait(after) =>
                reply == Requeue(after) && cluster.store == old(cluster.store)
                && cluster.notified == old(cluster.notified)
              case Move(phase, reason, kind, after) =>
                var outcome := MovedTo(fetched.status, phase, reason);
                && reply == (if get.value + 1 == |old(cluster.store)| && fault == NoFault
                             then Requeue(after) else Error)
                && Submitted(cluster, get.value, outcome, MakeEvent(cluster.c, fetched.spec, outcome, kind), fault,
                             old(cluster.store), old(cluster.notified))
  {
    hide P.Run;
    hide Submitted;
    hide MakeEvent;
    match get {
      case Absent => return Requeue(0);
      case Unreadable => return Error;
      case Got(version) =>
        var inst := new ChallengeInstance(version, cluster.store[version]);
        ghost var i := Look(cluster, version);
        if inst.status.phase == Expired || inst.status.phase == Failed || inst.status.expiresAt == None {
          return Requeue(30 * SECOND);
        }
        var remaining := Sub(inst.status.expiresAt.value, cluster.clock);
        if remaining <= 0 {
          reply := NotifyAndSetPhase(cluster, inst, Expired, "TTL expired", EventExpired, 60 * SECOND, fault, i);
        } else if remaining <= EXPIRING_GRACE_WINDOW && inst.status.phase != Expiring {
          reply := NotifyAndSetPhase(cluster, inst, Expiring, "entering expiry grace window",
                                     EventExpiring, remaining, fault, i);
        } else {
          return Requeue(remaining - EXPIRING_GRACE_WINDOW);
        }
    }
  }

  datatype HttpReply = Extended | BadRequest | NotFound | InternalError

  /**
   handleExtendInstance: changes the spec of the stored object and nothing else, and only from its current
   version.
   */
  method HandleExtend(cluster: Cluster, get: Fetch<nat>, ttl: string, fault: Fault) returns (reply: HttpReply)
    requires cluster.Valid() && (get.Got? ==> get.value < |cluster.store|)
    modifies cluster`store, cluster`now, cluster`run
    ensures cluster.Valid() && old(cluster.run) <= cluster.run
    ensures P.Current(cluster.now).status == P.Current(old(cluster.now)).status
    ensures if cluster.c.parse(ttl).None? then reply == BadRequest
            else
              match get
              case Absent => reply == HttpReply.NotFound
              case Unreadable => reply == InternalError
              case Got(version) =>
                reply == if version + 1 == |old(cluster.store)| && fault == NoFault then Extended else InternalError
    ensures cluster.store == if cluster.c.parse(ttl).None? || !get.Got? then old(cluster.store)
                             else StoreAfterSpec(old(cluster.store), get.value,
                                                 old(cluster.store)[get.value].spec.(ttlOverride := ttl), fault)
    ensures reply == Extended ==> P.Current(cluster.now).spec == P.Current(old(cluster.now)).spec.(ttlOverride := ttl)
  {
    hide P.Run;
    if cluster.c.parse(ttl).None? {
      return BadRequest;
    }
    match get {
      case Absent => return HttpReply.NotFound;
      case Unreadable => return InternalError;
      case Got(version) =>
        var spec := cluster.store[version].spec.(ttlOverride := ttl);
        ghost var i := |cluster.now.workers|;
        cluster.Take(P.StartExtend(version, ttl));
        var ok := cluster.UpdateSpec(version, spec, fault);
        if fault != Refused {
          cluster.Take(P.Submit(i));
        }
        return if ok then Extended else InternalError;
    }
  }

  /** Time passes. */
  method Elapse(cluster: Cluster, d: nat)
    requires cluster.Valid()
    modifies cluster`clock, cluster`now, cluster`run
    ensures cluster.Valid() && old(cluster.run) <= cluster.run
    ensures cluster.clock == old(cluster.clock) + d
  {
    cluster.clock := cluster.clock + d;
    cluster.Take(P.Tick(d));
  }
}
