/** Discovery: from endpoints objects, through the pods they target and those
    pods' controllers, to the scalable resources to idle
    (findScalableResourcesForEndpoints and calculateIdlableAnnotationsByService
    in pkg/oc/cli/idle/idle.go). */
module IdleDiscovery {
  import opened Wrappers
  import opened IdleTypes

  /** The outcome of a collaborator's lookup: the object, a NotFound error
      (which the discovery tolerates), or any other error. */
  datatype Lookup<T> = Found(value: T) | NotFound | LookupFailed

  datatype ObjectKey = ObjectKey(groupKind: GroupKind, namespace: string, name: string)

  /** The collaborators discovery reads from, as they answer during one run. */
  datatype Cluster = Cluster(
    pods: ObjectReference -> Lookup<Pod>,          // Pods(namespace).Get(name)
    restMapping: GroupKind -> bool,                // Mapper.RESTMapping and ClientForMappingFn succeed
    controllers: ObjectKey -> Lookup<Controller>,  // helper.Get(namespace, name) on the kind's helper
    parseGroup: string -> Option<string>)          // group of schema.ParseGroupVersion, None on error

  /** One call made to a collaborator. */
  datatype Call =
    | PodGet(pod: ObjectReference)
    | RestMappingGet(groupKind: GroupKind)
    | ControllerGet(controller: NamespacedOwnerReference)

  /** What getController (idle.go:233-273) answers for a reference, memo aside:
      a parse or REST-mapping error is an error, otherwise the helper's answer. */
  function ControllerLookup(cl: Cluster, ref: NamespacedOwnerReference): Lookup<Controller>
  {
    match cl.parseGroup(ref.owner.apiVersion)
    case None => LookupFailed
    case Some(group) =>
      var gk := GroupKind(group, ref.owner.kind);
      if !cl.restMapping(gk) then LookupFailed
      else cl.controllers(ObjectKey(gk, ref.namespace, ref.owner.name))
  }

  predicate Succeeded(cl: Cluster, c: Call) {
    match c
    case PodGet(r) => cl.pods(r).Found?
    case RestMappingGet(gk) => cl.restMapping(gk)
    case ControllerGet(ref) => ControllerLookup(cl, ref).Found?
  }

  /** A lookup that once succeeded is never made again: later requests are
      answered from the memo. */
  ghost predicate NoRepeatedSuccess(cl: Cluster, calls: seq<Call>) {
    forall i, j :: 0 <= i < j < |calls| && calls[i] == calls[j] ==> !Succeeded(cl, calls[i])
  }

  /** Every pod lookup in a log is for a reference of kind "Pod". */
  ghost predicate OnlyPodGets(calls: seq<Call>) {
    forall k :: 0 <= k < |calls| && calls[k].PodGet? ==> calls[k].pod.kind == "Pod"
  }

  lemma OnlyPodGetsConcat(calls: seq<Call>, n: nat)
    requires n <= |calls| && OnlyPodGets(calls[..n]) && OnlyPodGets(calls[n..])
    ensures OnlyPodGets(calls)
  {
    forall k | 0 <= k < |calls| && calls[k].PodGet? ensures calls[k].pod.kind == "Pod" {
      if k < n {
        assert calls[..n][k] == calls[k];
      } else {
        assert calls[n..][k - n] == calls[k];
      }
    }
  }

  /** The getPod and getController closures of calculateIdlableAnnotationsByService
      together with the memo maps they share (idle.go:216-273). */
  class Resolver {
    const cluster: Cluster
    var podsLoaded: map<ObjectReference, Pod>
    var controllersLoaded: map<NamespacedOwnerReference, Controller>
    var helpers: set<GroupKind>
    var calls: seq<Call>

    ghost predicate Cached(c: Call)
      reads this
    {
      match c
      case PodGet(r) => r in podsLoaded
      case RestMappingGet(gk) => gk in helpers
      case ControllerGet(ref) => ref in controllersLoaded
    }

    /** The memo holds only what the collaborators answered, and every
        successful call is remembered. */
    ghost predicate Valid()
      reads this
    {
      && (forall r :: r in podsLoaded ==> cluster.pods(r) == Found(podsLoaded[r]))
      && (forall c :: c in controllersLoaded ==> ControllerLookup(cluster, c) == Found(controllersLoaded[c]))
      && (forall gk :: gk in helpers ==> cluster.restMapping(gk))
      && (forall i :: 0 <= i < |calls| && Succeeded(cluster, calls[i]) ==> Cached(calls[i]))
      && NoRepeatedSuccess(cluster, calls)
    }

    constructor (cluster: Cluster)
      ensures Valid() && this.cluster == cluster
      ensures podsLoaded == map[] && controllersLoaded == map[] && helpers == {} && calls == []
    {
      this.cluster := cluster;
      podsLoaded, controllersLoaded, helpers, calls := map[], map[], {}, [];
    }

    /** getPod (idle.go:217-229). */
    method GetPod(ref: ObjectReference) returns (r: Lookup<Pod>)
      requires Valid()
      modifies this
      ensures Valid()
      ensures r == cluster.pods(ref)
      ensures calls == old(calls) + (if ref in old(podsLoaded) then [] else [PodGet(ref)])
      ensures podsLoaded == if r.Found? then old(podsLoaded)[ref := r.value] else old(podsLoaded)
      ensures controllersLoaded == old(controllersLoaded) && helpers == old(helpers)
    {
      if ref in podsLoaded {
        return Found(podsLoaded[ref]);
      }
      r := cluster.pods(ref);
      calls := calls + [PodGet(ref)];
      if r.Found? {
        podsLoaded := podsLoaded[ref := r.value];
      }
    }

    /** getController (idle.go:233-273). A memoised controller is answered
        from the memo with no call. Otherwise the group is parsed; the REST
        mapping is asked for only when its group-kind is not cached, and is
        cached when it succeeds; the controller is then fetched, and memoised
        when found. */
    method GetController(ref: NamespacedOwnerReference) returns (r: Lookup<Controller>)
      requires Valid()
      modifies this
      ensures Valid()
      ensures r == ControllerLookup(cluster, ref)
      ensures ref in old(controllersLoaded) ==>
                r == Found(old(controllersLoaded)[ref]) && calls == old(calls) && helpers == old(helpers)
      ensures controllersLoaded == if r.Found? then old(controllersLoaded)[ref := r.value] else old(controllersLoaded)
      ensures ref !in old(controllersLoaded) && cluster.parseGroup(ref.owner.apiVersion).None? ==>
                calls == old(calls) && helpers == old(helpers)
      ensures ref !in old(controllersLoaded) && cluster.parseGroup(ref.owner.apiVersion).Some? ==>
                var gk := GroupKind(cluster.parseGroup(ref.owner.apiVersion).value, ref.owner.kind);
                && helpers == old(helpers) + (if cluster.restMapping(gk) then {gk} else {})
                && calls == old(calls) + (if gk in old(helpers) then [] else [RestMappingGet(gk)])
                                       + (if cluster.restMapping(gk) then [ControllerGet(ref)] else [])
      ensures podsLoaded == old(podsLoaded)
      ensures |old(calls)| <= |calls| && calls[..|old(calls)|] == old(calls)
      ensures forall i :: |old(calls)| <= i < |calls| ==> !calls[i].PodGet?
    {
      if ref in controllersLoaded {
        return Found(controllersLoaded[ref]);
      }
      var gv := cluster.parseGroup(ref.owner.apiVersion);
      if gv.None? {
        return LookupFailed;
      }
      var gk := GroupKind(gv.value, ref.owner.kind);
      if gk !in helpers {
        calls := calls + [RestMappingGet(gk)];
        if !cluster.restMapping(gk) {
          return LookupFailed;
        }
        helpers := helpers + {gk};
      }
      calls := calls + [ControllerGet(ref)];
      r := cluster.controllers(ObjectKey(gk, ref.namespace, ref.owner.name));
      if r.Found? {
        controllersLoaded := controllersLoaded[ref := r.value];
      }
    }

    /** One address of the pod phase (idle.go:367-377): a pod reference is
        looked up; a NotFound pod is skipped, any other error ends the search. */
    method LoadAddressPod(addr: EndpointAddress, podRefs0: map<ObjectReference, Pod>, ghost seen: set<ObjectReference>)
      returns (r: Result<map<ObjectReference, Pod>>)
      requires Valid()
      requires podRefs0 == LoadedPods(cluster, seen)
      modifies this
      ensures Valid()
      ensures r.Ok? ==> r.value == LoadedPods(cluster, seen + AddressTarget(addr))
      ensures r.Ok? <==> !PodPhaseFails(cluster, AddressTarget(addr))
      ensures r.Err? ==> r.error.PodLookupFailed? && r.error.pod in AddressTarget(addr) &&
                         cluster.pods(r.error.pod).LookupFailed?
      ensures Extends(old(calls), calls, AddressTarget(addr))
    {
      if addr.targetRef.Some? && addr.targetRef.value.kind == "Pod" {
        var target := addr.targetRef.value;
        var pod := GetPod(target);
        if pod.LookupFailed? {
          return Err(PodLookupFailed(target));
        }
        LoadedPodsAdd(cluster, seen, target);
        if pod.Found? {
          return Ok(podRefs0[target := pod.value]);
        }
      }
      assert seen + AddressTarget(addr) == seen || cluster.pods(addr.targetRef.value).NotFound?;
      return Ok(podRefs0);
    }

    /** The address loop of the pod phase for one subset (idle.go:367-378). */
    method LoadAddressPods(addrs: seq<EndpointAddress>, podRefs0: map<ObjectReference, Pod>,
                           ghost seen: set<ObjectReference>)
      returns (r: Result<map<ObjectReference, Pod>>)
      requires Valid()
      requires podRefs0 == LoadedPods(cluster, seen)
      modifies this
      ensures Valid()
      ensures r.Ok? ==> r.value == LoadedPods(cluster, seen + AddressTargets(addrs))
      ensures r.Ok? <==> !PodPhaseFails(cluster, AddressTargets(addrs))
      ensures r.Err? ==> r.error.PodLookupFailed? && r.error.pod in AddressTargets(addrs) &&
                         cluster.pods(r.error.pod).LookupFailed?
      ensures Extends(old(calls), calls, AddressTargets(addrs))
    {
      var podRefs := podRefs0;
      for a := 0 to |addrs|
        invariant Valid()
        invariant podRefs == LoadedPods(cluster, seen + AddressTargets(addrs[..a]))
        invariant !PodPhaseFails(cluster, AddressTargets(addrs[..a]))
        invariant Extends(old(calls), calls, AddressTargets(addrs))
      {
        AddressTargetsPrefix(addrs, a);
        AddressTargetsHas(addrs, a);
        ghost var calls1 := calls;
        var loaded := LoadAddressPod(addrs[a], podRefs, seen + AddressTargets(addrs[..a]));
        ExtendsChain(old(calls), calls1, calls, AddressTarget(addrs[a]), AddressTargets(addrs));
        if loaded.Err? {
          return Err(loaded.error);
        }
        assert seen + AddressTargets(addrs[..a + 1]) == (seen + AddressTargets(addrs[..a])) + AddressTarget(addrs[a]);
        PodPhaseFailsUnion(cluster, AddressTargets(addrs[..a]), AddressTarget(addrs[a]));
        podRefs := loaded.value;
      }
      assert addrs[..|addrs|] == addrs;
      return Ok(podRefs);
    }

    /** The pod phase (idle.go:365-379): load every pod an address points to;
        NotFound pods are skipped, any other error ends the search. */
    method LoadPods(endpoints: Endpoints) returns (r: Result<map<ObjectReference, Pod>>)
      requires Valid()
      modifies this
      ensures Valid()
      ensures r.Ok? <==> !PodPhaseFails(cluster, PodTargets(endpoints))
      ensures r.Ok? ==> r.value == LoadedPods(cluster, PodTargets(endpoints))
      ensures r.Err? ==> r.error.PodLookupFailed? && r.error.pod in PodTargets(endpoints) &&
                         cluster.pods(r.error.pod).LookupFailed?
      ensures Extends(old(calls), calls, PodTargets(endpoints))
    {
      var podRefs: map<ObjectReference, Pod> := map[];
      var subsets := endpoints.subsets;
      assert SubsetTargets(subsets[..0]) == {};
      for s := 0 to |subsets|
        invariant Valid()
        invariant podRefs == LoadedPods(cluster, SubsetTargets(subsets[..s]))
        invariant !PodPhaseFails(cluster, SubsetTargets(subsets[..s]))
        invariant Extends(old(calls), calls, PodTargets(endpoints))
      {
        SubsetTargetsPrefix(subsets, s);
        AddressTargetsWithin(subsets, s);
        ghost var calls1 := calls;
        var loaded := LoadAddressPods(subsets[s].addresses, podRefs, SubsetTargets(subsets[..s]));
        ExtendsChain(old(calls), calls1, calls, AddressTargets(subsets[s].addresses), PodTargets(endpoints));
        if loaded.Err? {
          return Err(loaded.error);
        }
        podRefs := loaded.value;
      }
      assert subsets[..|subsets|] == subsets;
      return Ok(podRefs);
    }

    /** The controller phase (idle.go:393-419): load each distinct immediate
        controller and take its creator; NotFound controllers are skipped. */
    method LoadCreators(immediate: set<NamespacedOwnerReference>)
      returns (r: Result<set<NamespacedCrossGroupObjectReference>>)
      requires Valid()
      modifies this
      ensures Valid()
      ensures r.Ok? <==> !CreatorPhaseFails(cluster, immediate)
      ensures r.Ok? ==> r.value == Creators(cluster, immediate)
      ensures r.Err? ==> ExplainsCreatorFailure(cluster, immediate, r.error)
      ensures Extends(old(calls), calls, {})
    {
      var controllerRefs: set<NamespacedCrossGroupObjectReference> := {};
      var controllersLeft := immediate;
      while controllersLeft != {}
        invariant Valid()
        invariant controllersLeft <= immediate
        invariant !CreatorPhaseFails(cluster, immediate - controllersLeft)
        invariant controllerRefs == Creators(cluster, immediate - controllersLeft)
        invariant Extends(old(calls), calls, {})
        decreases controllersLeft
      {
        var controllerRef :| controllerRef in controllersLeft;
        ghost var calls1 := calls;
        var controller := GetController(controllerRef);
        ExtendsTrans(old(calls), calls1, calls, {});
        if controller.LookupFailed? {
          return Err(ControllerLoadFailed(controllerRef));
        }
        CreatorsAdd(cluster, immediate - controllersLeft, controllerRef);
        assert immediate - (controllersLeft - {controllerRef}) == (immediate - controllersLeft) + {controllerRef};
        if controller.Found? {
          var parentControllerRef := ControllerOf(controller.value.ownerReferences);
          var crossGroupObjRef;
          if parentControllerRef.None? {
            // a plain controller with no creator of its own stands for itself
            crossGroupObjRef := MakeCrossGroupObjRef(controllerRef.owner, cluster.parseGroup);
          } else {
            crossGroupObjRef := MakeCrossGroupObjRef(parentControllerRef.value, cluster.parseGroup);
          }
          if crossGroupObjRef.None? {
            return Err(CreatorUnparsable(controllerRef));
          }
          controllerRefs := controllerRefs +
            {NamespacedCrossGroupObjectReference(crossGroupObjRef.value, controllerRef.namespace)};
        }
        controllersLeft := controllersLeft - {controllerRef};
      }
      assert immediate - {} == immediate;
      return Ok(controllerRefs);
    }

    /** findScalableResourcesForEndpoints (idle.go:363-422) with this resolver's
        getPod and getController. The outcome is the one ScalableResources
        describes; which error is reported when several apply depends on map order. */
    method FindScalableResourcesForEndpoints(endpoints: Endpoints)
      returns (r: Result<set<NamespacedCrossGroupObjectReference>>)
      requires Valid()
      modifies this
      ensures Valid()
      ensures r.Ok? <==> ScalableResources(cluster, endpoints).Some?
      ensures r.Ok? ==> r.value == ScalableResources(cluster, endpoints).value
      ensures r.Err? ==> ExplainsFailure(cluster, endpoints, r.error)
      ensures Extends(old(calls), calls, PodTargets(endpoints))
    {
      // Phase 1: the pods the endpoints' addresses target (LoadPods).
      var podRefs := LoadPods(endpoints);
      if podRefs.Err? {
        return Err(podRefs.error);
      }
      // Phase 2: the controller key of each loaded pod.
      var immediateControllerRefs := ImmediateControllerRefs(podRefs.value);
      if immediateControllerRefs.Err? {
        return Err(immediateControllerRefs.error);
      }
      // Phase 3: the creator of each controller (LoadCreators).
      ghost var calls1 := calls;
      var controllerRefs := LoadCreators(immediateControllerRefs.value);
      ExtendsChain(old(calls), calls1, calls, {}, PodTargets(endpoints));
      if controllerRefs.Err? {
        return Err(controllerRefs.error);
      }
      return Ok(controllerRefs.value);
    }
  }

  /** `now` extends `before`, and the new pod lookups are all of `targets`. */
  ghost predicate Extends(before: seq<Call>, now: seq<Call>, targets: set<ObjectReference>) {
    |before| <= |now| && now[..|before|] == before &&
    forall i :: |before| <= i < |now| && now[i].PodGet? ==> now[i].pod in targets
  }

  lemma ExtendsTrans(a: seq<Call>, b: seq<Call>, c: seq<Call>, targets: set<ObjectReference>)
    requires Extends(a, b, targets) && Extends(b, c, targets)
    ensures Extends(a, c, targets)
  {
    assert c[..|a|] == c[..|b|][..|a|];
  }

  /** A step whose pod lookups are among `small` extends a run whose lookups are among `large`. */
  lemma ExtendsChain(a: seq<Call>, b: seq<Call>, c: seq<Call>, small: set<ObjectReference>, large: set<ObjectReference>)
    requires Extends(a, b, large) && Extends(b, c, small) && small <= large
    ensures Extends(a, c, large)
  {
    assert c[..|a|] == c[..|b|][..|a|];
  }

  /** The controller phase's reported error names a controller whose load, or
      whose creator's group, failed. */
  ghost predicate ExplainsCreatorFailure(cl: Cluster, cs: set<NamespacedOwnerReference>, err: IdleError) {
    match err
    case ControllerLoadFailed(c) => c in cs && ControllerLookup(cl, c).LookupFailed?
    case CreatorUnparsable(c) =>
      c in cs && ControllerLookup(cl, c).Found? && ScalableRef(cl, c, ControllerLookup(cl, c).value).None?
    case _ => false
  }

  /** The pod-to-controller phase (idle.go:382-390), with the nil check before
      the normalisation as intended (see ImmediateController). */
  method ImmediateControllerRefs(podRefs: map<ObjectReference, Pod>)
    returns (r: Result<set<NamespacedOwnerReference>>)
    ensures r.Ok? <==> !ControllerPhaseFails(podRefs)
    ensures r.Ok? ==> r.value == ImmediateControllers(podRefs, podRefs.Keys)
    ensures r.Err? ==> exists t :: t in podRefs && ControllerOf(podRefs[t].ownerReferences).None? &&
                        r.error == NoCreatorReference(podRefs[t].namespace, podRefs[t].name)
  {
    var immediateControllerRefs: set<NamespacedOwnerReference> := {};
    var podsLeft := podRefs.Keys;
    while podsLeft != {}
      invariant podsLeft <= podRefs.Keys
      invariant forall t :: t in podRefs.Keys - podsLeft ==> ImmediateController(podRefs[t]).Resolved?
      invariant immediateControllerRefs == ImmediateControllers(podRefs, podRefs.Keys - podsLeft)
      decreases podsLeft
    {
      var t :| t in podsLeft;
      var step := ImmediateController(podRefs[t]);
      if step.Failed? {
        return Err(step.error);
      }
      assert podRefs.Keys - (podsLeft - {t}) == (podRefs.Keys - podsLeft) + {t};
      immediateControllerRefs := immediateControllerRefs + {step.ref};
      podsLeft := podsLeft - {t};
    }
    assert podRefs.Keys - {} == podRefs.Keys;
    return Ok(immediateControllerRefs);
  }

  lemma PodPhaseFailsUnion(cl: Cluster, a: set<ObjectReference>, b: set<ObjectReference>)
    ensures PodPhaseFails(cl, a + b) <==> PodPhaseFails(cl, a) || PodPhaseFails(cl, b)
  {
  }

  lemma LoadedPodsAdd(cl: Cluster, seen: set<ObjectReference>, t: ObjectReference)
    ensures LoadedPods(cl, seen + {t}) ==
            if cl.pods(t).Found? then LoadedPods(cl, seen)[t := cl.pods(t).value] else LoadedPods(cl, seen)
  {
  }

  lemma CreatorsAdd(cl: Cluster, cs: set<NamespacedOwnerReference>, c: NamespacedOwnerReference)
    ensures Creators(cl, cs + {c}) ==
            Creators(cl, cs) +
            if ControllerLookup(cl, c).Found? && ScalableRef(cl, c, ControllerLookup(cl, c).value).Some?
            then {ScalableRef(cl, c, ControllerLookup(cl, c).value).value} else {}
  {
  }

  lemma {:induction false} AddressTargetsWithin(subsets: seq<EndpointSubset>, s: nat)
    requires s < |subsets|
    ensures AddressTargets(subsets[s].addresses) <= SubsetTargets(subsets)
  {
    var n := |subsets| - 1;
    if s < n {
      assert subsets[..n][s] == subsets[s];
      AddressTargetsWithin(subsets[..n], s);
    }
  }

  // ---------------------------------------------------------------------------
  // The specification of findScalableResourcesForEndpoints.

  function AddressTarget(addr: EndpointAddress): set<ObjectReference> {
    if addr.targetRef.Some? && addr.targetRef.value.kind == "Pod" then {addr.targetRef.value} else {}
  }

  /** The pod references among some addresses (idle.go:367-368). */
  function AddressTargets(addrs: seq<EndpointAddress>): set<ObjectReference> {
    if addrs == [] then {}
    else AddressTargets(addrs[..|addrs| - 1]) + AddressTarget(addrs[|addrs| - 1])
  }

  /** The pod references of every address of every subset (idle.go:366-368). */
  function SubsetTargets(subsets: seq<EndpointSubset>): set<ObjectReference> {
    if subsets == [] then {}
    else SubsetTargets(subsets[..|subsets| - 1]) + AddressTargets(subsets[|subsets| - 1].addresses)
  }

  /** An address's pod reference is among the targets of its sequence. */
  lemma {:induction false} AddressTargetsHas(addrs: seq<EndpointAddress>, a: nat)
    requires a < |addrs|
    ensures AddressTarget(addrs[a]) <= AddressTargets(addrs)
  {
    var n := |addrs| - 1;
    if a < n {
      assert addrs[..n][a] == addrs[a];
      AddressTargetsHas(addrs[..n], a);
    }
  }

  /** Exactly the references of kind "Pod" named by some address are targets. */
  lemma {:induction false} AddressTargetsMembers(addrs: seq<EndpointAddress>, t: ObjectReference)
    ensures t in AddressTargets(addrs) <==>
            t.kind == "Pod" && exists i :: 0 <= i < |addrs| && addrs[i].targetRef == Some(t)
  {
    if addrs != [] {
      var n := |addrs| - 1;
      AddressTargetsMembers(addrs[..n], t);
      if t.kind == "Pod" && exists i :: 0 <= i < |addrs| && addrs[i].targetRef == Some(t) {
        var i :| 0 <= i < |addrs| && addrs[i].targetRef == Some(t);
        AddressTargetsHas(addrs, i);
      }
      if t in AddressTargets(addrs[..n]) {
        var i :| 0 <= i < n && addrs[..n][i].targetRef == Some(t);
        assert addrs[i].targetRef == Some(t);
      }
    }
  }

  /** Exactly the references of kind "Pod" named by some address of some subset are targets. */
  lemma {:induction false} SubsetTargetsMembers(subsets: seq<EndpointSubset>, t: ObjectReference)
    ensures t in SubsetTargets(subsets) <==>
            t.kind == "Pod" && exists i, j :: 0 <= i < |subsets| && 0 <= j < |subsets[i].addresses| &&
                                              subsets[i].addresses[j].targetRef == Some(t)
  {
    if subsets != [] {
      var n := |subsets| - 1;
      SubsetTargetsMembers(subsets[..n], t);
      AddressTargetsMembers(subsets[n].addresses, t);
      if t.kind == "Pod" && exists i, j :: 0 <= i < |subsets| && 0 <= j < |subsets[i].addresses| &&
                                           subsets[i].addresses[j].targetRef == Some(t) {
        var i, j :| 0 <= i < |subsets| && 0 <= j < |subsets[i].addresses| &&
                    subsets[i].addresses[j].targetRef == Some(t);
        AddressTargetsWithin(subsets, i);
        AddressTargetsHas(subsets[i].addresses, j);
      }
      if t in SubsetTargets(subsets[..n]) {
        var i, j :| 0 <= i < n && 0 <= j < |subsets[..n][i].addresses| &&
                    subsets[..n][i].addresses[j].targetRef == Some(t);
        assert subsets[..n][i] == subsets[i];
      }
    }
  }

  /** Only pods are ever targets. */
  lemma {:induction false} SubsetTargetsArePods(subsets: seq<EndpointSubset>)
    ensures forall t :: t in SubsetTargets(subsets) ==> t.kind == "Pod"
  {
    forall t | t in SubsetTargets(subsets) ensures t.kind == "Pod" {
      SubsetTargetsMembers(subsets, t);
    }
  }

  lemma AddressTargetsPrefix(addrs: seq<EndpointAddress>, a: nat)
    requires a < |addrs|
    ensures AddressTargets(addrs[..a + 1]) == AddressTargets(addrs[..a]) + AddressTarget(addrs[a])
  {
    assert addrs[..a + 1][..a] == addrs[..a];
  }

  lemma SubsetTargetsPrefix(subsets: seq<EndpointSubset>, s: nat)
    requires s < |subsets|
    ensures SubsetTargets(subsets[..s + 1]) == SubsetTargets(subsets[..s]) + AddressTargets(subsets[s].addresses)
  {
    assert subsets[..s + 1][..s] == subsets[..s];
  }

  function PodTargets(endpoints: Endpoints): set<ObjectReference> {
    SubsetTargets(endpoints.subsets)
  }

  /** podRefs: the pods that were found, by reference (idle.go:365-379). */
  function LoadedPods(cl: Cluster, targets: set<ObjectReference>): map<ObjectReference, Pod> {
    map t | t in targets && cl.pods(t).Found? :: cl.pods(t).value
  }

  /** immediateControllerRefs restricted to the pods of `keys` (idle.go:382-390). */
  function ImmediateControllers(pods: map<ObjectReference, Pod>, keys: set<ObjectReference>):
    set<NamespacedOwnerReference>
  {
    set t | t in keys && t in pods && ImmediateController(pods[t]).Resolved? :: ImmediateController(pods[t]).ref
  }

  /** The scalable reference a loaded controller stands for (idle.go:400-417): its own
      controlling owner if it has one, else the controller itself, in its namespace. */
  function ScalableRef(cl: Cluster, c: NamespacedOwnerReference, controller: Controller):
    (r: Option<NamespacedCrossGroupObjectReference>)
    ensures r.Some? ==> r.value.namespace == c.namespace
    ensures ControllerOf(controller.ownerReferences).Some? ==>
              r == (var p := ControllerOf(controller.ownerReferences).value;
                    if cl.parseGroup(p.apiVersion).None? then None
                    else Some(NamespacedCrossGroupObjectReference(
                      CrossGroupObjectReference(p.kind, p.name, cl.parseGroup(p.apiVersion).value), c.namespace)))
    ensures ControllerOf(controller.ownerReferences).None? ==>
              r == (if cl.parseGroup(c.owner.apiVersion).None? then None
                    else Some(NamespacedCrossGroupObjectReference(
                      CrossGroupObjectReference(c.owner.kind, c.owner.name, cl.parseGroup(c.owner.apiVersion).value),
                      c.namespace)))
  {
    var creator := match ControllerOf(controller.ownerReferences)
                   case Some(p) => p
                   case None => c.owner;
    match MakeCrossGroupObjRef(creator, cl.parseGroup)
    case None => None
    case Some(x) => Some(NamespacedCrossGroupObjectReference(x, c.namespace))
  }

  /** Loading `c`, or naming its creator, fails with an error other than NotFound. */
  predicate CreatorFails(cl: Cluster, c: NamespacedOwnerReference) {
    match ControllerLookup(cl, c)
    case LookupFailed => true
    case NotFound => false
    case Found(controller) => ScalableRef(cl, c, controller).None?
  }

  /** controllerRefs for the immediate controllers in `cs` (idle.go:393-419):
      NotFound controllers are skipped. */
  function Creators(cl: Cluster, cs: set<NamespacedOwnerReference>): set<NamespacedCrossGroupObjectReference> {
    set c | c in cs && ControllerLookup(cl, c).Found? && ScalableRef(cl, c, ControllerLookup(cl, c).value).Some?
      :: ScalableRef(cl, c, ControllerLookup(cl, c).value).value
  }

  ghost predicate PodPhaseFails(cl: Cluster, targets: set<ObjectReference>) {
    exists t :: t in targets && cl.pods(t).LookupFailed?
  }

  ghost predicate ControllerPhaseFails(pods: map<ObjectReference, Pod>) {
    exists t :: t in pods && ImmediateController(pods[t]).Failed?
  }

  ghost predicate CreatorPhaseFails(cl: Cluster, cs: set<NamespacedOwnerReference>) {
    exists c :: c in cs && CreatorFails(cl, c)
  }

  /** What findScalableResourcesForEndpoints computes, None when it returns an error. */
  ghost function ScalableResources(cl: Cluster, endpoints: Endpoints): Option<set<NamespacedCrossGroupObjectReference>> {
    var targets := PodTargets(endpoints);
    var pods := LoadedPods(cl, targets);
    var immediate := ImmediateControllers(pods, pods.Keys);
    if PodPhaseFails(cl, targets) || ControllerPhaseFails(pods) || CreatorPhaseFails(cl, immediate) then None
    else Some(Creators(cl, immediate))
  }

  /** The error returned names an object whose lookup actually failed, in the
      phase that actually failed first. */
  ghost predicate ExplainsFailure(cl: Cluster, endpoints: Endpoints, err: IdleError) {
    var targets := PodTargets(endpoints);
    var pods := LoadedPods(cl, targets);
    var immediate := ImmediateControllers(pods, pods.Keys);
    match err
    case PodLookupFailed(t) => t in targets && cl.pods(t).LookupFailed?
    case NoCreatorReference(ns, name) =>
      && !PodPhaseFails(cl, targets)
      && exists t :: t in pods && pods[t].namespace == ns && pods[t].name == name &&
                     ControllerOf(pods[t].ownerReferences).None?
    case ControllerLoadFailed(c) =>
      !PodPhaseFails(cl, targets) && !ControllerPhaseFails(pods) && c in immediate &&
      ControllerLookup(cl, c).LookupFailed?
    case CreatorUnparsable(c) =>
      !PodPhaseFails(cl, targets) && !ControllerPhaseFails(pods) && c in immediate &&
      ControllerLookup(cl, c).Found? && ScalableRef(cl, c, ControllerLookup(cl, c).value).None?
    case _ => false
  }

  // ---------------------------------------------------------------------------
  // Properties of the discovery.

  /** Every entry of the result is the creator of the controller of some pod the
      endpoints point to, tagged with that pod's namespace. */
  lemma ScalableResourcesTraceBack(cl: Cluster, endpoints: Endpoints, x: NamespacedCrossGroupObjectReference)
    requires ScalableResources(cl, endpoints).Some?
    requires x in ScalableResources(cl, endpoints).value
    ensures exists t :: t in PodTargets(endpoints) && cl.pods(t).Found? &&
              ControllerOf(cl.pods(t).value.ownerReferences).Some? &&
              var c := NormalizedNSOwnerRef(cl.pods(t).value.namespace,
                                            ControllerOf(cl.pods(t).value.ownerReferences).value);
              ControllerLookup(cl, c).Found? && ScalableRef(cl, c, ControllerLookup(cl, c).value) == Some(x) &&
              x.namespace == cl.pods(t).value.namespace
  {
    var pods := LoadedPods(cl, PodTargets(endpoints));
    var immediate := ImmediateControllers(pods, pods.Keys);
    assert x in Creators(cl, immediate);
    var c :| c in immediate && ControllerLookup(cl, c).Found? &&
             ScalableRef(cl, c, ControllerLookup(cl, c).value).Some? &&
             ScalableRef(cl, c, ControllerLookup(cl, c).value).value == x;
    var t :| t in pods.Keys && ImmediateController(pods[t]).Resolved? && ImmediateController(pods[t]).ref == c;
    assert t in PodTargets(endpoints) && cl.pods(t).value == pods[t];
    assert c.namespace == pods[t].namespace;
  }

  /** Conversely every creator of a found controller of a found pod is in the result. */
  lemma ScalableResourcesComplete(cl: Cluster, endpoints: Endpoints, t: ObjectReference)
    requires ScalableResources(cl, endpoints).Some?
    requires t in PodTargets(endpoints) && cl.pods(t).Found?
    ensures var pod := cl.pods(t).value;
            ControllerOf(pod.ownerReferences).Some? &&
            var c := NormalizedNSOwnerRef(pod.namespace, ControllerOf(pod.ownerReferences).value);
            (ControllerLookup(cl, c).Found? ==>
               ScalableRef(cl, c, ControllerLookup(cl, c).value).Some? &&
               ScalableRef(cl, c, ControllerLookup(cl, c).value).value in ScalableResources(cl, endpoints).value)
  {
    var pods := LoadedPods(cl, PodTargets(endpoints));
    var immediate := ImmediateControllers(pods, pods.Keys);
    assert t in pods && pods[t] == cl.pods(t).value;
    assert !ControllerPhaseFails(pods) && !CreatorPhaseFails(cl, immediate);
    assert ImmediateController(pods[t]).Resolved?;
    var c := ImmediateController(pods[t]).ref;
    assert c in immediate;
    assert !CreatorFails(cl, c);
  }

  lemma {:induction false} CreatorsNoLarger(cl: Cluster, cs: set<NamespacedOwnerReference>)
    ensures |Creators(cl, cs)| <= |cs|
    decreases |cs|
  {
    if cs != {} {
      var c :| c in cs;
      CreatorsNoLarger(cl, cs - {c});
      CreatorsAdd(cl, cs - {c}, c);
      assert cs - {c} + {c} == cs;
      assert |cs - {c}| == |cs| - 1;
    }
  }

  /** Dedup: the result has at most one entry per distinct (normalised) controller
      of the pods found, so pods sharing a controller, or addresses repeating a
      pod, contribute a single entry. */
  lemma ScalableResourcesDedup(cl: Cluster, endpoints: Endpoints)
    requires ScalableResources(cl, endpoints).Some?
    ensures var pods := LoadedPods(cl, PodTargets(endpoints));
            |ScalableResources(cl, endpoints).value| <= |ImmediateControllers(pods, pods.Keys)|
  {
    var pods := LoadedPods(cl, PodTargets(endpoints));
    CreatorsNoLarger(cl, ImmediateControllers(pods, pods.Keys));
  }

  // ---------------------------------------------------------------------------
  // calculateIdlableAnnotationsByService (idle.go:215-315).

  datatype ApiObject = EndpointsObject(endpoints: Endpoints) | OtherObject(resource: string)

  /** What the resource visitor hands to the callback: an error or an object. */
  datatype VisitedInfo = VisitError | Visited(object: ApiObject)

  /** idleUpdateInfo (idle.go:196-199). */
  datatype IdleUpdateInfo = IdleUpdateInfo(obj: Endpoints, scaleRefs: set<CrossGroupObjectReference>)

  /** An endpoints object whose scalable resources were found. */
  datatype Claim = Claim(endpoints: Endpoints, refs: set<NamespacedCrossGroupObjectReference>)

  function NameOf(e: Endpoints): NamespacedName {
    NamespacedName(e.namespace, e.name)
  }

  /** The namespace-free projection of a set of references (idle.go:297-301). */
  function Project(refs: set<NamespacedCrossGroupObjectReference>): (r: set<CrossGroupObjectReference>)
    ensures forall x :: x in refs ==> x.ref in r
    ensures forall y :: y in r ==> exists x :: x in refs && x.ref == y
  {
    set x | x in refs :: x.ref
  }

  /** The claim one visited object makes, None when the callback reports an error for it. */
  ghost function ClaimOf(cl: Cluster, info: VisitedInfo): Option<Claim> {
    match info
    case Visited(EndpointsObject(e)) =>
      if ScalableResources(cl, e).Some? then Some(Claim(e, ScalableResources(cl, e).value)) else None
    case _ => None
  }

  /** The error the callback reports for one visited object names what went wrong with it. */
  ghost predicate ExplainsVisitFailure(cl: Cluster, info: VisitedInfo, err: IdleError) {
    match info
    case VisitError => err == VisitFailed
    case Visited(OtherObject(resource)) => err == NotEndpoints(resource)
    case Visited(EndpointsObject(e)) =>
      err.ScalableResourcesFailed? && err.service == NameOf(e) && ExplainsFailure(cl, e, err.cause)
  }

  /** The endpoints objects that resolved, in visiting order. */
  ghost function Claims(cl: Cluster, infos: seq<VisitedInfo>): seq<Claim> {
    if infos == [] then []
    else
      var claim := ClaimOf(cl, infos[|infos| - 1]);
      Claims(cl, infos[..|infos| - 1]) + if claim.Some? then [claim.value] else []
  }

  /** endpointsInfo: each endpoints object's name to its object and projected refs. */
  function ForwardIndex(claims: seq<Claim>): map<NamespacedName, IdleUpdateInfo> {
    if claims == [] then map[]
    else
      var last := claims[|claims| - 1];
      ForwardIndex(claims[..|claims| - 1])[NameOf(last.endpoints) := IdleUpdateInfo(last.endpoints, Project(last.refs))]
  }

  /** targetScaleRefs: each found reference to the endpoints that claimed it last. */
  function ReverseIndex(claims: seq<Claim>): map<NamespacedCrossGroupObjectReference, NamespacedName> {
    if claims == [] then map[]
    else
      var last := claims[|claims| - 1];
      ReverseIndex(claims[..|claims| - 1]) + map x | x in last.refs :: NameOf(last.endpoints)
  }

  /** The loop over one endpoints object's scalable references (idle.go:297-301):
      each is claimed for `name`, and their namespace-free projection is collected. */
  method RecordScaleRefs(byScalable0: map<NamespacedCrossGroupObjectReference, NamespacedName>,
                         name: NamespacedName, refs: set<NamespacedCrossGroupObjectReference>)
    returns (byScalable: map<NamespacedCrossGroupObjectReference, NamespacedName>,
             nonNamespaced: set<CrossGroupObjectReference>)
    ensures byScalable == byScalable0 + map x | x in refs :: name
    ensures nonNamespaced == Project(refs)
  {
    byScalable, nonNamespaced := byScalable0, {};
    var refsLeft := refs;
    while refsLeft != {}
      invariant refsLeft <= refs
      invariant nonNamespaced == Project(refs - refsLeft)
      invariant byScalable == byScalable0 + map x | x in refs - refsLeft :: name
      decreases refsLeft
    {
      var ref :| ref in refsLeft;
      nonNamespaced := nonNamespaced + {ref.ref};
      byScalable := byScalable[ref := name];
      refsLeft := refsLeft - {ref};
    }
    assert refs - {} == refs;
  }

  /** The visitor callback of calculateIdlableAnnotationsByService for one object
      (idle.go:278-295): an error, an object that is not an endpoints, or the
      endpoints with its scalable resources. */
  method VisitInfo(resolver: Resolver, info: VisitedInfo) returns (r: Result<Claim>)
    requires resolver.Valid()
    modifies resolver
    ensures resolver.Valid()
    ensures r.Ok? <==> ClaimOf(resolver.cluster, info).Some?
    ensures r.Ok? ==> r.value == ClaimOf(resolver.cluster, info).value
    ensures r.Err? ==> ExplainsVisitFailure(resolver.cluster, info, r.error)
    ensures |old(resolver.calls)| <= |resolver.calls| && resolver.calls[..|old(resolver.calls)|] == old(resolver.calls)
    ensures OnlyPodGets(resolver.calls[|old(resolver.calls)|..])
  {
    match info
    case VisitError =>
      return Err(VisitFailed);
    case Visited(OtherObject(resource)) =>
      return Err(NotEndpoints(resource));
    case Visited(EndpointsObject(endpoints)) =>
      var found := resolver.FindScalableResourcesForEndpoints(endpoints);
      SubsetTargetsArePods(endpoints.subsets);
      if found.Err? {
        return Err(ScalableResourcesFailed(NameOf(endpoints), found.error));
      }
      return Ok(Claim(endpoints, found.value));
  }

  lemma ClaimsStep(cl: Cluster, infos: seq<VisitedInfo>, i: nat)
    requires i < |infos|
    ensures Claims(cl, infos[..i + 1]) ==
            Claims(cl, infos[..i]) + if ClaimOf(cl, infos[i]).Some? then [ClaimOf(cl, infos[i]).value] else []
  {
    assert infos[..i + 1][..i] == infos[..i];
  }

  lemma IndexesAppend(claims: seq<Claim>, c: Claim)
    ensures ForwardIndex(claims + [c]) ==
            ForwardIndex(claims)[NameOf(c.endpoints) := IdleUpdateInfo(c.endpoints, Project(c.refs))]
    ensures ReverseIndex(claims + [c]) == ReverseIndex(claims) + map x | x in c.refs :: NameOf(c.endpoints)
  {
    assert (claims + [c])[..|claims|] == claims;
  }

  /** Recording one endpoints object's claim in both indexes (idle.go:296-303). */
  method RecordClaim(byService0: map<NamespacedName, IdleUpdateInfo>,
                     byScalable0: map<NamespacedCrossGroupObjectReference, NamespacedName>, claim: Claim)
    returns (byService: map<NamespacedName, IdleUpdateInfo>,
             byScalable: map<NamespacedCrossGroupObjectReference, NamespacedName>)
    ensures byService == byService0[NameOf(claim.endpoints) := IdleUpdateInfo(claim.endpoints, Project(claim.refs))]
    ensures byScalable == byScalable0 + map x | x in claim.refs :: NameOf(claim.endpoints)
  {
    var endpointsName := NameOf(claim.endpoints);
    var nonNamespacedScaleRefs;
    byScalable, nonNamespacedScaleRefs := RecordScaleRefs(byScalable0, endpointsName, claim.refs);
    byService := byService0[endpointsName := IdleUpdateInfo(claim.endpoints, nonNamespacedScaleRefs)];
  }

  /** `errs` reports the objects among the first `n` visited that did not
      resolve, one error each, in visiting order: `origin[k]` is the object
      the k-th error was reported for, and the error names what failed. */
  ghost predicate ReportsEachFailure(cl: Cluster, infos: seq<VisitedInfo>, n: nat, errs: seq<IdleError>, origin: seq<nat>)
    requires n <= |infos|
  {
    && |origin| == |errs|
    && (forall k :: 0 <= k < |errs| ==>
          origin[k] < n && ClaimOf(cl, infos[origin[k]]).None? && ExplainsVisitFailure(cl, infos[origin[k]], errs[k]))
    && (forall k, l :: 0 <= k < l < |errs| ==> origin[k] < origin[l])
    && (forall i :: 0 <= i < n && ClaimOf(cl, infos[i]).None? ==> i in origin)
  }

  /** The failures reported once one more object is visited: a failing
      object adds its error, a resolving one adds none. */
  lemma ReportsStep(cl: Cluster, infos: seq<VisitedInfo>, i: nat, errs: seq<IdleError>, origin: seq<nat>, r: Result<Claim>)
    requires i < |infos| && ReportsEachFailure(cl, infos, i, errs, origin)
    requires r.Ok? <==> ClaimOf(cl, infos[i]).Some?
    requires r.Err? ==> ExplainsVisitFailure(cl, infos[i], r.error)
    ensures r.Err? ==> ReportsEachFailure(cl, infos, i + 1, errs + [r.error], origin + [i])
    ensures r.Ok? ==> ReportsEachFailure(cl, infos, i + 1, errs, origin)
  {
    if r.Err? {
      var errs', origin' := errs + [r.error], origin + [i];
      forall j | 0 <= j < i + 1 && ClaimOf(cl, infos[j]).None? ensures j in origin' {
        if j < i {
          assert j in origin;
        } else {
          assert origin'[|origin|] == j;
        }
      }
    } else {
      forall j | 0 <= j < i + 1 && ClaimOf(cl, infos[j]).None? ensures j in origin {
        assert j < i;
      }
    }
  }

  /** One visited object's outcome folded into the results (idle.go:292-303):
      a failure adds its error, a claim is recorded in both indexes. */
  method RecordVisit(cl: Cluster, infos: seq<VisitedInfo>, i: nat, ghost claims: seq<Claim>,
                     byService0: map<NamespacedName, IdleUpdateInfo>,
                     byScalable0: map<NamespacedCrossGroupObjectReference, NamespacedName>,
                     errs0: seq<IdleError>, ghost origin0: seq<nat>, visited: Result<Claim>)
    returns (byService: map<NamespacedName, IdleUpdateInfo>,
             byScalable: map<NamespacedCrossGroupObjectReference, NamespacedName>,
             errs: seq<IdleError>, ghost claims': seq<Claim>, ghost origin: seq<nat>)
    requires i < |infos| && claims == Claims(cl, infos[..i])
    requires byService0 == ForwardIndex(claims) && byScalable0 == ReverseIndex(claims)
    requires |errs0| + |claims| == i && ReportsEachFailure(cl, infos, i, errs0, origin0)
    requires visited.Ok? <==> ClaimOf(cl, infos[i]).Some?
    requires visited.Ok? ==> visited.value == ClaimOf(cl, infos[i]).value
    requires visited.Err? ==> ExplainsVisitFailure(cl, infos[i], visited.error)
    ensures claims' == Claims(cl, infos[..i + 1])
    ensures byService == ForwardIndex(claims') && byScalable == ReverseIndex(claims')
    ensures |errs| + |claims'| == i + 1 && ReportsEachFailure(cl, infos, i + 1, errs, origin)
  {
    ClaimsStep(cl, infos, i);
    ReportsStep(cl, infos, i, errs0, origin0, visited);
    if visited.Err? {
      byService, byScalable, errs, claims', origin := byService0, byScalable0, errs0 + [visited.error], claims, origin0 + [i];
    } else {
      IndexesAppend(claims, visited.value);
      byService, byScalable := RecordClaim(byService0, byScalable0, visited.value);
      errs, claims', origin := errs0, claims + [visited.value], origin0;
    }
  }

  /** The visitor is set to continue on error (idle.go:540): a failing object is
      reported and the others are still collected. The result maps are the
      indexes of the objects that resolved, one error per object that did not,
      each naming what failed, and no successful lookup is repeated across the run. */
  method CalculateIdlableAnnotationsByService(cl: Cluster, infos: seq<VisitedInfo>)
    returns (byService: map<NamespacedName, IdleUpdateInfo>,
             byScalable: map<NamespacedCrossGroupObjectReference, NamespacedName>,
             errs: seq<IdleError>, lookups: seq<Call>, ghost origin: seq<nat>)
    ensures byService == ForwardIndex(Claims(cl, infos))
    ensures byScalable == ReverseIndex(Claims(cl, infos))
    ensures |errs| + |Claims(cl, infos)| == |infos|
    ensures ReportsEachFailure(cl, infos, |infos|, errs, origin)
    ensures NoRepeatedSuccess(cl, lookups)
    ensures OnlyPodGets(lookups)
  {
    var resolver := new Resolver(cl);
    byService, byScalable, errs := map[], map[], [];
    ghost var claims: seq<Claim> := [];  // the claims of the objects visited so far
    origin := [];
    for i := 0 to |infos|
      invariant fresh(resolver) && resolver.Valid() && resolver.cluster == cl
      invariant claims == Claims(cl, infos[..i])
      invariant byService == ForwardIndex(claims)
      invariant byScalable == ReverseIndex(claims)
      invariant |errs| + |claims| == i
      invariant ReportsEachFailure(cl, infos, i, errs, origin)
      invariant OnlyPodGets(resolver.calls)
    {
      ghost var n := |resolver.calls|;
      var visited := VisitInfo(resolver, infos[i]);
      OnlyPodGetsConcat(resolver.calls, n);
      byService, byScalable, errs, claims, origin := RecordVisit(cl, infos, i, claims, byService, byScalable, errs, origin, visited);
    }
    assert infos[..|infos|] == infos;
    lookups := resolver.calls;
  }

  // ---------------------------------------------------------------------------
  // Properties of the two indexes.

  /** Last writer wins: a reference maps to the last endpoints that claimed it. */
  lemma {:induction false} ReverseIndexLastClaim(claims: seq<Claim>, x: NamespacedCrossGroupObjectReference, i: nat)
    requires i < |claims| && x in claims[i].refs
    requires forall j :: i < j < |claims| ==> x !in claims[j].refs
    ensures x in ReverseIndex(claims) && ReverseIndex(claims)[x] == NameOf(claims[i].endpoints)
  {
    var n := |claims| - 1;
    if i < n {
      ReverseIndexLastClaim(claims[..n], x, i);
    }
  }

  /** The reverse index holds exactly the references some endpoints claimed. */
  lemma {:induction false} ReverseIndexDomain(claims: seq<Claim>, x: NamespacedCrossGroupObjectReference)
    ensures x in ReverseIndex(claims) <==> exists i :: 0 <= i < |claims| && x in claims[i].refs
  {
    if claims != [] {
      var n := |claims| - 1;
      ReverseIndexDomain(claims[..n], x);
      if x in ReverseIndex(claims[..n]) {
        var i :| 0 <= i < n && x in claims[..n][i].refs;
        assert x in claims[i].refs;
      }
      if exists i :: 0 <= i < |claims| && x in claims[i].refs {
        var i :| 0 <= i < |claims| && x in claims[i].refs;
        if i < n {
          assert x in claims[..n][i].refs;
        }
      }
    }
  }

  /** Each endpoints name maps to its last claim, with exactly the namespace-free
      projection of that claim's references. */
  lemma {:induction false} ForwardIndexLastClaim(claims: seq<Claim>, i: nat)
    requires i < |claims|
    requires forall j :: i < j < |claims| ==> NameOf(claims[j].endpoints) != NameOf(claims[i].endpoints)
    ensures NameOf(claims[i].endpoints) in ForwardIndex(claims)
    ensures ForwardIndex(claims)[NameOf(claims[i].endpoints)] ==
            IdleUpdateInfo(claims[i].endpoints, Project(claims[i].refs))
  {
    var n := |claims| - 1;
    if i < n {
      ForwardIndexLastClaim(claims[..n], i);
    }
  }

  /** Every endpoints name the reverse index points to has an entry in the
      forward index. */
  lemma {:induction false} ReverseTargetsAreIndexed(claims: seq<Claim>)
    ensures forall x :: x in ReverseIndex(claims) ==> ReverseIndex(claims)[x] in ForwardIndex(claims)
  {
    if claims != [] {
      ReverseTargetsAreIndexed(claims[..|claims| - 1]);
    }
  }
}
