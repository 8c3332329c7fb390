/** Waking up the instance controller when a pod changes. */
module PodWatch {
  import opened ApiTypes
  import opened Instances

  // ----- Listing

  /** A list of an instance's pods: exactly those that belong to it, in whatever order the cache gives them. */
  ghost predicate IsListing(list: seq<Pod>, pods: multiset<Pod>, namespace: string, name: string) {
    forall pod :: multiset(list)[pod] == if BelongsTo(pod, namespace, name) then pods[pod] else 0
  }

  /** The pods of an instance, in the order in which they come. */
  function Listing(pods: seq<Pod>, namespace: string, name: string): (list: seq<Pod>)
    ensures forall pod <- list :: BelongsTo(pod, namespace, name)
  {
    if pods == [] then []
    else
      var last := pods[|pods| - 1];
      Listing(pods[..|pods| - 1], namespace, name) + if BelongsTo(last, namespace, name) then [last] else []
  }

  lemma {:induction false} ListingIsOne(pods: seq<Pod>, namespace: string, name: string)
    ensures IsListing(Listing(pods, namespace, name), multiset(pods), namespace, name)
  {
    hide BelongsTo;
    if pods != [] {
      var init, last := pods[..|pods| - 1], pods[|pods| - 1];
      ListingIsOne(init, namespace, name);
      assert pods == init + [last];
    }
  }

  /** A reconcile that lists the pods, in some order, can come to this verdict. */
  ghost predicate CanConclude(pods: multiset<Pod>, namespace: string, name: string,
                              count: Int32, threshold: Int32, verdict: Verdict) {
    exists list :: IsListing(list, pods, namespace, name) && DeterminePhase(count, threshold, Observe(list)) == verdict
  }

  /** The pods of a multiset, in some order. */
  lemma {:induction false} Arranged(pods: multiset<Pod>) returns (order: seq<Pod>)
    ensures multiset(order) == pods
    decreases |pods|
  {
    if pods == multiset{} {
      order := [];
    } else {
      var pod :| pod in pods;
      order := Arranged(pods - multiset{pod});
      order := order + [pod];
    }
  }

  lemma {:induction false} ListingOfBoth(ours: seq<Pod>, others: seq<Pod>, namespace: string, name: string)
    requires forall pod <- ours :: BelongsTo(pod, namespace, name)
    requires forall pod <- others :: !BelongsTo(pod, namespace, name)
    ensures Listing(ours + others, namespace, name) == ours
  {
    hide BelongsTo;
    var all := ours + others;
    if others != [] {
      assert all[..|all| - 1] == ours + others[..|others| - 1];
      ListingOfBoth(ours, others[..|others| - 1], namespace, name);
    } else if ours != [] {
      var init := ours[..|ours| - 1];
      assert all[..|all| - 1] == init + [];
      ListingOfBoth(init, [], namespace, name);
    }
  }

  /** Every list of an instance's pods is what it gets to see when all pods come in some order. */
  lemma EveryListComes(list: seq<Pod>, pods: multiset<Pod>, namespace: string, name: string) returns (order: seq<Pod>)
    requires IsListing(list, pods, namespace, name)
    ensures multiset(order) == pods && Listing(order, namespace, name) == list
  {
    var rest := Arranged(pods - multiset(list));
    order := list + rest;
    forall pod | pod in list ensures BelongsTo(pod, namespace, name) {
      assert multiset(list)[pod] > 0;
    }
    forall pod | pod in rest ensures !BelongsTo(pod, namespace, name) {
      assert pod in multiset(rest);
    }
    assert multiset(list) <= pods;
    ListingOfBoth(list, rest, namespace, name);
  }

  /** The verdicts a reconcile can come to are exactly those of determinePhase on the pods in one order or another. */
  lemma PossibleVerdicts(pods: multiset<Pod>, namespace: string, name: string, count: Int32, threshold: Int32,
                         verdict: Verdict)
    ensures CanConclude(pods, namespace, name, count, threshold, verdict) <==>
              exists order :: multiset(order) == pods
                              && DeterminePhase(count, threshold, Observe(Listing(order, namespace, name))) == verdict
  {
    hide DeterminePhase;
    hide Observe;
    hide IsListing;
    if CanConclude(pods, namespace, name, count, threshold, verdict) {
      var list :| IsListing(list, pods, namespace, name) && DeterminePhase(count, threshold, Observe(list)) == verdict;
      var order := EveryListComes(list, pods, namespace, name);
    }
    if order :| multiset(order) == pods
                && DeterminePhase(count, threshold, Observe(Listing(order, namespace, name))) == verdict {
      ListingIsOne(order, namespace, name);
    }
  }

  // ----- Changes

  datatype Request = Request(namespace: string, name: string)

  function MapPodToInstance(pod: Pod): seq<Request> {
    if LABEL_INSTANCE in pod.labels then [Request(pod.namespace, pod.labels[LABEL_INSTANCE])] else []
  }

  datatype Change = Added(pod: Pod) | Updated(was: Pod, pod: Pod) | Deleted(was: Pod)

  /** The pods a change touches: the old version, the new one, or both. */
  function Touched(change: Change): seq<Pod> {
    match change
    case Added(pod) => [pod]
    case Updated(was, pod) => [was, pod]
    case Deleted(was) => [was]
  }

  predicate Possible(pods: multiset<Pod>, change: Change) {
    change.Added? || change.was in pods
  }

  function After(pods: multiset<Pod>, change: Change): multiset<Pod>
    requires Possible(pods, change)
  {
    match change
    case Added(pod) => pods + multiset{pod}
    case Updated(was, pod) => pods - multiset{was} + multiset{pod}
    case Deleted(was) => pods - multiset{was}
  }

  /** EnqueueRequestsFromMapFunc: the old pod and the new one are both mapped. */
  function Enqueued(change: Change): seq<Request> {
    match change
    case Added(pod) => MapPodToInstance(pod)
    case Updated(was, pod) => MapPodToInstance(was) + MapPodToInstance(pod)
    case Deleted(was) => MapPodToInstance(was)
  }

  /** A pod is listed for exactly the instance that its label maps it to. */
  lemma ListedWhereMapped(pod: Pod, namespace: string, name: string)
    ensures BelongsTo(pod, namespace, name) <==> MapPodToInstance(pod) == [Request(namespace, name)]
  {
    assert LABEL_INSTANCE in map[LABEL_INSTANCE := name];
  }

  /** A change wakes up exactly the instances that the old or the new version of the pod belongs to. */
  lemma WokenExactly(change: Change, namespace: string, name: string)
    ensures Request(namespace, name) in Enqueued(change) <==>
              exists pod :: pod in Touched(change) && BelongsTo(pod, namespace, name)
  {
    var touched := Touched(change);
    forall pod | pod in touched
      ensures BelongsTo(pod, namespace, name) <==> Request(namespace, name) in MapPodToInstance(pod)
    {
      ListedWhereMapped(pod, namespace, name);
    }
    assert touched[0] in touched && touched[|touched| - 1] in touched;
  }

  lemma UntouchedListings(pods: multiset<Pod>, change: Change, namespace: string, name: string, list: seq<Pod>)
    requires Possible(pods, change)
    requires forall pod :: pod in Touched(change) ==> !BelongsTo(pod, namespace, name)
    ensures IsListing(list, After(pods, change), namespace, name) <==> IsListing(list, pods, namespace, name)
  {
    var touched := Touched(change);
    assert touched[0] in touched && touched[|touched| - 1] in touched;
    forall pod | BelongsTo(pod, namespace, name) ensures After(pods, change)[pod] == pods[pod] {
      assert pod !in touched;
    }
  }

  /**
   No change that makes a verdict on an instance possible, or impossible, goes unnoticed: a reconcile of that instance
   is enqueued. This holds for every order in which the pods may be listed, before and after.
   */
  lemma ChangeWakesInstance(pods: multiset<Pod>, change: Change, namespace: string, name: string,
                            count: Int32, threshold: Int32, verdict: Verdict)
    requires Possible(pods, change)
    requires CanConclude(After(pods, change), namespace, name, count, threshold, verdict)
             != CanConclude(pods, namespace, name, count, threshold, verdict)
    ensures Request(namespace, name) in Enqueued(change)
  {
    hide DeterminePhase;
    hide Observe;
    hide IsListing;
    WokenExactly(change, namespace, name);
    if forall pod :: pod in Touched(change) ==> !BelongsTo(pod, namespace, name) {
      forall list {
        UntouchedListings(pods, change, namespace, name, list);
      }
    }
  }
}
