/**
 The API server and the scoring backend as the reconcilers see them, with the run of the protocol that
 their state is the end of. Every method that acts on the cluster also takes the protocol steps it performs.
 */
module ApiServer {
  import opened ApiTypes
  import opened Calls
  import opened Instances
  import P = Protocol
  import opened Protocol
  import opened Safety

  /** The versions after an update of the status: none is added unless the version is current and something changes. */
  function StoreAfterStatus(store: seq<Instance>, version: nat, status: Status, fault: Fault): seq<Instance>
    requires store != []
  {
    var was := store[|store| - 1];
    if version + 1 != |store| || fault == Refused || Persisted(status) == was.status then store
    else store + [Instance(was.spec, Persisted(status))]
  }

  /** The versions after an update of the object itself: the status it carries is ignored. */
  function StoreAfterSpec(store: seq<Instance>, version: nat, spec: Spec, fault: Fault): seq<Instance>
    requires store != []
  {
    var was := store[|store| - 1];
    if version + 1 != |store| || fault == Refused || spec == was.spec then store
    else store + [Instance(spec, was.status)]
  }

  class Cluster {
    const c: Config
    var clock: int
    var store: seq<Instance>
    var world: map<Key, Owned>
    var notified: seq<Event>
    ghost var now: State
    ghost var run: seq<State>

    /** The cluster is in the last state of its run. */
    ghost predicate Valid()
      reads this
    {
      && store != []
      && Run(c, run) && now == Last(run)
      && now.clock == clock && now.store == store && now.world == world && now.sent == notified
    }

    /** The cluster just after the instance was created. */
    constructor (c: Config, spec: Spec, clock: int)
      ensures Valid() && |run| == 1 && this.c == c && this.clock == clock
      ensures store == [Instance(spec, EMPTY_STATUS)] && world == map[] && notified == []
    {
      this.c := c;
      this.clock := clock;
      store := [Instance(spec, EMPTY_STATUS)];
      world := map[];
      notified := [];
      now := State(clock, [Instance(spec, EMPTY_STATUS)], map[], [], [], [], [], multiset{});
      run := [now];
    }

    /**
     What the guarantees for runs say of a cluster, whatever its methods have done since an earlier moment: a terminal
     status stays, dates stay, owned objects stay, and versions and notifications are only added to.
     */
    lemma Since(earlier: seq<State>)
      requires Valid() && earlier != [] && earlier <= run
      ensures Last(earlier).store != []
      ensures var before, after := Current(Last(earlier)).status, store[|store| - 1].status;
              && (before.phase in {Expired, Failed} ==> after == before)
              && (before.expiresAt.Some? ==> after.startedAt == before.startedAt && after.expiresAt == before.expiresAt)
      ensures forall key <- Last(earlier).world :: key in world && world[key] == Last(earlier).world[key]
      ensures Last(earlier).store <= store && Last(earlier).sent <= notified && Last(earlier).clock <= clock
    {
      WhatStays(c, run, |earlier| - 1, |run| - 1);
      assert earlier[|earlier| - 1] == run[|earlier| - 1];
      hide Run;
    }

    /** Take a step of the protocol. */
    ghost method Take(step: Step)
      requires Run(c, run) && now == Last(run) && Enabled(c, now, step)
      modifies this`now, this`run
      ensures now == Apply(c, old(now), step)
      ensures Run(c, run) && now == Last(run) && old(run) <= run
    {
      var longer := Continue(c, run, step);
      run := longer;
      now := Last(run);
    }

    method Get(key: Key, view: View) returns (answer: Lookup)
      ensures answer == Found ==> key in world
      ensures view == Fresh ==> answer == if key in world then Found else NotFound
      ensures view == Stale ==> answer == NotFound
      ensures view == Broken ==> answer == Failure
    {
      match view
      case Broken => answer := Failure;
      case Stale => answer := NotFound;
      case Fresh => answer := if key in world then Found else NotFound;
    }

    /** Create never replaces an object: the name is taken as long as it exists. */
    method Create(key: Key, obj: Owned, fault: Fault) returns (ok: bool)
      modifies this`world
      ensures ok <==> key !in old(world) && fault == NoFault
      ensures world == if key in old(world) || fault == Refused then old(world) else old(world)[key := obj]
    {
      ok := key !in world && fault == NoFault;
      if key !in world && fault != Refused {
        world := world[key := obj];
      }
    }

    /** The status subresource: refused unless the submitted version is the current one; the spec is not touched. */
    method UpdateStatus(version: nat, status: Status, fault: Fault) returns (ok: bool)
      requires store != []
      modifies this`store
      ensures ok <==> version + 1 == |old(store)| && fault == NoFault
      ensures store == StoreAfterStatus(old(store), version, status, fault)
      ensures version + 1 == |old(store)| && fault != Refused ==>
                && store != [] && store[|store| - 1].spec == old(store)[version].spec
                && store[|store| - 1].status == Persisted(status)
                && (store == old(store) || store == old(store) + [store[|store| - 1]])
      ensures version + 1 != |old(store)| || fault == Refused ==> store == old(store)
    {
      var was := store[|store| - 1];
      ok := version + 1 == |store| && fault == NoFault;
      if version + 1 == |store| && fault != Refused && Persisted(status) != was.status {
        store := store + [Instance(was.spec, Persisted(status))];
      }
    }

    method UpdateSpec(version: nat, spec: Spec, fault: Fault) returns (ok: bool)
      requires store != []
      modifies this`store
      ensures ok <==> version + 1 == |old(store)| && fault == NoFault
      ensures store == StoreAfterSpec(old(store), version, spec, fault)
      ensures version + 1 == |old(store)| && fault != Refused ==>
                && store != [] && store[|store| - 1] == Instance(spec, old(store)[version].status)
                && (store == old(store) || store == old(store) + [store[|store| - 1]])
      ensures version + 1 != |old(store)| || fault == Refused ==> store == old(store)
    {
      var was := store[|store| - 1];
      ok := version + 1 == |store| && fault == NoFault;
      if version + 1 == |store| && fault != Refused && spec != was.spec {
        store := store + [Instance(spec, was.status)];
      }
    }

    method Notify(event: Event)
      modifies this`notified
      ensures notified == old(notified) + [event]
    {
      notified := notified + [event];
    }
  }

  /** The reconcile's own copy of the object, which it changes in place before it submits it. */
  class ChallengeInstance {
    const version: nat
    const spec: Spec
    var status: Status

    constructor (version: nat, fetched: Instance)
      ensures this.version == version && spec == fetched.spec && status == fetched.status
    {
      this.version := version;
      this.spec := fetched.spec;
      this.status := fetched.status;
    }

    ghost function Copy(): P.Copy
      reads this
    {
      P.Copy(version, spec, status)
    }
  }

  /** Status().Update of a copy, and the protocol's submission of it. */
  method Persist(cluster: Cluster, inst: ChallengeInstance, fault: Fault, ghost i: nat) returns (ok: bool)
    requires cluster.Valid() && At(cluster.now, i)
    requires cluster.now.workers[i].StatusUpdate? && cluster.now.workers[i].w == inst.Copy()
    modifies cluster`store, cluster`now, cluster`run
    ensures cluster.Valid() && old(cluster.run) <= cluster.run
    ensures At(cluster.now, i)
    ensures ok <==> inst.version + 1 == |old(cluster.store)| && fault == NoFault
    ensures cluster.store == StoreAfterStatus(old(cluster.store), inst.version, inst.status, fault)
    ensures var event := old(cluster.now).workers[i].event;
            ok ==> cluster.now.workers[i]
                   == if event.Some? then Owing(event.value, |old(cluster.now).log|) else Done
  {
    ok := cluster.UpdateStatus(inst.version, inst.status, fault);
    if fault != Refused {
      cluster.Take(Submit(i));
    }
  }

  /** Backend.Notify, whose result the controllers ignore. */
  method Announce(cluster: Cluster, event: Event, ghost i: nat)
    requires cluster.Valid() && At(cluster.now, i)
    requires cluster.now.workers[i].Owing? && cluster.now.workers[i].due == event
    modifies cluster`notified, cluster`now, cluster`run
    ensures cluster.Valid() && old(cluster.run) <= cluster.run
    ensures At(cluster.now, i) && cluster.now.workers[i] == Done
    ensures cluster.notified == old(cluster.notified) + [event]
  {
    cluster.Notify(event);
    cluster.Take(Step.Notify(i));
  }

  /** The reconcile ends with an error; whatever it still owed is lost. */
  ghost method GiveUp(cluster: Cluster, i: nat)
    requires cluster.Valid() && At(cluster.now, i)
    modifies cluster`now, cluster`run
    ensures cluster.Valid() && old(cluster.run) <= cluster.run
  {
    cluster.Take(Stop(i));
  }
}
