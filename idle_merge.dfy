/** Merging the scalable resources found now with the ones an endpoints object
    already records in its unidle-targets annotation (pairScalesWithScaleRefs
    and setIdleAnnotations in pkg/oc/cli/idle/idle.go). */
module IdleMerge {
  import opened Wrappers
  import opened IdleTypes

  /** The unidle-targets annotation of an endpoints object: missing, present
      but not a JSON list of recorded scale references, or parsed. */
  datatype StoredTargets = Absent | Corrupt | Parsed(targets: seq<RecordedScaleReference>)

  /** Reading the annotation; `decode` stands for json.Unmarshal into a list of
      RecordedScaleReference (None when it fails). */
  function StoredTargetsOf(annotations: map<string, string>, decode: string -> Option<seq<RecordedScaleReference>>):
    (r: StoredTargets)
    ensures r.Absent? <==> UnidleTargetAnnotation !in annotations
    ensures r.Corrupt? <==> UnidleTargetAnnotation in annotations && decode(annotations[UnidleTargetAnnotation]).None?
    ensures r.Parsed? ==> Some(r.targets) == decode(annotations[UnidleTargetAnnotation])
  {
    if UnidleTargetAnnotation !in annotations then Absent
    else match decode(annotations[UnidleTargetAnnotation])
      case None => Corrupt
      case Some(targets) => Parsed(targets)
  }

  /** The references a list of recorded targets names. */
  function KeySet(s: seq<RecordedScaleReference>): set<CrossGroupObjectReference> {
    if s == [] then {} else KeySet(s[..|s| - 1]) + {s[|s| - 1].ref}
  }

  /** No reference is listed twice. */
  predicate UniqueKeys(s: seq<RecordedScaleReference>) {
    forall i, j :: 0 <= i < j < |s| ==> s[i].ref != s[j].ref
  }

  lemma {:induction false} KeySetHas(s: seq<RecordedScaleReference>, i: nat)
    requires i < |s|
    ensures s[i].ref in KeySet(s)
  {
    var n := |s| - 1;
    if i < n {
      KeySetHas(s[..n], i);
    }
  }

  lemma {:induction false} KeySetIndex(s: seq<RecordedScaleReference>, k: CrossGroupObjectReference) returns (i: nat)
    requires k in KeySet(s)
    ensures i < |s| && s[i].ref == k
  {
    var n := |s| - 1;
    if k == s[n].ref {
      i := n;
    } else {
      i := KeySetIndex(s[..n], k);
    }
  }

  lemma KeySetAppend(s: seq<RecordedScaleReference>, x: RecordedScaleReference)
    ensures KeySet(s + [x]) == KeySet(s) + {x.ref}
    ensures UniqueKeys(s) && x.ref !in KeySet(s) ==> UniqueKeys(s + [x])
  {
    assert (s + [x])[..|s|] == s;
    if UniqueKeys(s) && x.ref !in KeySet(s) {
      forall i | 0 <= i < |s|
        ensures s[i].ref != x.ref
      {
        KeySetHas(s, i);
      }
    }
  }

  lemma UniqueNotInPrefix(s: seq<RecordedScaleReference>, j: nat)
    requires UniqueKeys(s) && j < |s|
    ensures s[j].ref !in KeySet(s[..j])
  {
    if s[j].ref in KeySet(s[..j]) {
      var i := KeySetIndex(s[..j], s[j].ref);
      assert false;
    }
  }

  lemma KeySetPrefix(s: seq<RecordedScaleReference>, j: nat)
    requires j < |s|
    ensures KeySet(s[..j + 1]) == KeySet(s[..j]) + {s[j].ref}
  {
    assert s[..j + 1] == s[..j] + [s[j]];
    KeySetAppend(s[..j], s[j]);
  }

  /** oldTargetsSet (idle.go:444-451): each reference to the position of its last entry. */
  function IndexByKey(targets: seq<RecordedScaleReference>): (m: map<CrossGroupObjectReference, nat>)
    ensures m.Keys == KeySet(targets)
    ensures forall k :: k in m ==> m[k] < |targets| && targets[m[k]].ref == k
  {
    if targets == [] then map[]
    else
      var n := |targets| - 1;
      var rest := IndexByKey(targets[..n]);
      assert forall i :: 0 <= i < n ==> targets[..n][i] == targets[i];
      rest[targets[n].ref := n]
  }

  /** When a reference is listed more than once, the index keeps its last entry. */
  lemma {:induction false} IndexByKeyIsLast(targets: seq<RecordedScaleReference>, k: CrossGroupObjectReference, j: nat)
    requires j < |targets| && targets[j].ref == k
    ensures k in IndexByKey(targets) && j <= IndexByKey(targets)[k]
  {
    var n := |targets| - 1;
    if j < n && targets[n].ref != k {
      assert targets[..n][j] == targets[j];
      IndexByKeyIsLast(targets[..n], k, j);
    }
  }

  /** The replica count recorded for `k` by its last entry. */
  function OldReplicas(prior: seq<RecordedScaleReference>, k: CrossGroupObjectReference): Int32
    requires k in KeySet(prior)
  {
    prior[IndexByKey(prior)[k]].replicas
  }

  function Namespaced(k: CrossGroupObjectReference, namespace: string): NamespacedCrossGroupObjectReference {
    NamespacedCrossGroupObjectReference(k, namespace)
  }

  /** A scale was read for `x` and is not zero. */
  predicate LiveScale(scales: map<NamespacedCrossGroupObjectReference, Int32>, x: NamespacedCrossGroupObjectReference) {
    x in scales && scales[x] != 0
  }

  /** pairScalesWithScaleRefs writes a scale back for `x` (idle.go:454-465): a
      target found now and recorded before, in the service's namespace, whose
      scale is missing or zero. */
  predicate RecoversScale(namespace: string, prior: seq<RecordedScaleReference>, current: set<CrossGroupObjectReference>,
                          scales0: map<NamespacedCrossGroupObjectReference, Int32>, x: NamespacedCrossGroupObjectReference)
  {
    x.namespace == namespace && x.ref in current && x.ref in KeySet(prior) && !LiveScale(scales0, x)
  }

  /** `scales` is `scales0` with the recorded count written back for every
      target that recovers its scale, and nothing else changed. */
  ghost predicate ScalesAfterMerge(namespace: string, prior: seq<RecordedScaleReference>, current: set<CrossGroupObjectReference>,
                             scales0: map<NamespacedCrossGroupObjectReference, Int32>,
                             scales: map<NamespacedCrossGroupObjectReference, Int32>)
  {
    && (forall x :: x in scales <==> x in scales0 || RecoversScale(namespace, prior, current, scales0, x))
    && (forall x :: x in scales ==>
          scales[x] == if RecoversScale(namespace, prior, current, scales0, x) then OldReplicas(prior, x.ref) else scales0[x])
  }

  /** The count a target is recorded with (idle.go:473-488): the scale read, when
      there is one and it is not zero, otherwise the count already on the entry
      when not zero, otherwise 1. */
  function Replicas(scales: map<NamespacedCrossGroupObjectReference, Int32>, x: NamespacedCrossGroupObjectReference,
                    entry: Int32): (n: Int32)
    ensures n != 0
  {
    if LiveScale(scales, x) then scales[x] else if entry != 0 then entry else 1
  }

  /** The entry a target has before the final pass: a target found now starts
      at 0, one only recorded before keeps its last recorded entry. */
  function Entry(prior: seq<RecordedScaleReference>, current: set<CrossGroupObjectReference>, k: CrossGroupObjectReference):
    RecordedScaleReference
    requires k in current || k in KeySet(prior)
  {
    if k in current then RecordedScaleReference(k, 0) else prior[IndexByKey(prior)[k]]
  }

  /** The count the merge promises for one target (idle.go:424-427): the scale
      read for it when that is not zero, else its recorded count when that is
      not zero, else 1. */
  function IntendedReplicas(namespace: string, prior: seq<RecordedScaleReference>,
                            scales: map<NamespacedCrossGroupObjectReference, Int32>, k: CrossGroupObjectReference): (n: Int32)
    ensures n != 0
  {
    var x := Namespaced(k, namespace);
    if LiveScale(scales, x) then scales[x]
    else if k in KeySet(prior) && OldReplicas(prior, k) != 0 then OldReplicas(prior, k)
    else 1
  }

  /** The merged annotation, as a map from reference to replica count: every
      target found now and every target recorded before, each with its intended count. */
  function MergedReplicas(namespace: string, prior: seq<RecordedScaleReference>, current: set<CrossGroupObjectReference>,
                          scales: map<NamespacedCrossGroupObjectReference, Int32>):
    (m: map<CrossGroupObjectReference, Int32>)
    ensures m.Keys == current + KeySet(prior)
    ensures forall k :: k in m ==> m[k] != 0
  {
    map k | k in current + KeySet(prior) :: IntendedReplicas(namespace, prior, scales, k)
  }

  /** The merged list holds exactly the merged map's entries, each once. */
  predicate Lists(s: seq<RecordedScaleReference>, m: map<CrossGroupObjectReference, Int32>) {
    UniqueKeys(s) && KeySet(s) == m.Keys && forall i :: 0 <= i < |s| ==> s[i].ref in m && s[i].replicas == m[s[i].ref]
  }

  /** What the code computes for one target, through the scales it wrote back
      and the entry it started from, is the intended count. */
  lemma SettledIsIntended(namespace: string, prior: seq<RecordedScaleReference>, current: set<CrossGroupObjectReference>,
                          scales0: map<NamespacedCrossGroupObjectReference, Int32>,
                          scales: map<NamespacedCrossGroupObjectReference, Int32>, k: CrossGroupObjectReference)
    requires ScalesAfterMerge(namespace, prior, current, scales0, scales)
    requires k in current || k in KeySet(prior)
    ensures Replicas(scales, Namespaced(k, namespace), Entry(prior, current, k).replicas) ==
            IntendedReplicas(namespace, prior, scales0, k)
  {
    var x := Namespaced(k, namespace);
    if RecoversScale(namespace, prior, current, scales0, x) {
      assert scales[x] == OldReplicas(prior, k);
    } else {
      assert x in scales <==> x in scales0;
    }
  }

  /** The list pairScalesWithScaleRefs starts from (idle.go:431-439): every
      target found now, once, with 0 replicas. */
  method CurrentEntries(rawScaleRefs: set<CrossGroupObjectReference>) returns (scaleRefs: seq<RecordedScaleReference>)
    ensures UniqueKeys(scaleRefs) && KeySet(scaleRefs) == rawScaleRefs
    ensures forall i :: 0 <= i < |scaleRefs| ==> scaleRefs[i].replicas == 0
  {
    scaleRefs := [];
    var refsLeft := rawScaleRefs;
    while refsLeft != {}
      invariant refsLeft <= rawScaleRefs
      invariant UniqueKeys(scaleRefs) && KeySet(scaleRefs) == rawScaleRefs - refsLeft
      invariant forall i :: 0 <= i < |scaleRefs| ==> scaleRefs[i].replicas == 0
      decreases refsLeft
    {
      var rawScaleRef :| rawScaleRef in refsLeft;
      KeySetAppend(scaleRefs, RecordedScaleReference(rawScaleRef, 0));
      scaleRefs := scaleRefs + [RecordedScaleReference(rawScaleRef, 0)];
      refsLeft := refsLeft - {rawScaleRef};
    }
  }

  /** The loop building oldTargetsSet (idle.go:449-451). */
  method IndexTargets(oldTargets: seq<RecordedScaleReference>) returns (oldTargetsSet: map<CrossGroupObjectReference, nat>)
    ensures oldTargetsSet == IndexByKey(oldTargets)
  {
    oldTargetsSet := map[];
    for i := 0 to |oldTargets|
      invariant oldTargetsSet == IndexByKey(oldTargets[..i])
    {
      assert oldTargets[..i + 1][..i] == oldTargets[..i];
      oldTargetsSet := oldTargetsSet[oldTargets[i].ref := i];
    }
    assert oldTargets[..|oldTargets|] == oldTargets;
  }

  /** Merging one more target found now writes back at most its own scale. */
  lemma RecoverStep(namespace: string, prior: seq<RecordedScaleReference>, current: set<CrossGroupObjectReference>,
                    scales0: map<NamespacedCrossGroupObjectReference, Int32>,
                    scales: map<NamespacedCrossGroupObjectReference, Int32>, k: CrossGroupObjectReference)
    requires ScalesAfterMerge(namespace, prior, current, scales0, scales)
    requires k !in current
    ensures var x := Namespaced(k, namespace);
            ScalesAfterMerge(namespace, prior, current + {k}, scales0,
                             if k in KeySet(prior) && !LiveScale(scales, x) then scales[x := OldReplicas(prior, k)] else scales)
  {
    var x := Namespaced(k, namespace);
    assert !RecoversScale(namespace, prior, current, scales0, x);
    assert LiveScale(scales, x) == LiveScale(scales0, x);
    var scales' := if k in KeySet(prior) && !LiveScale(scales, x) then scales[x := OldReplicas(prior, k)] else scales;
    forall y
      ensures y in scales' <==> y in scales0 || RecoversScale(namespace, prior, current + {k}, scales0, y)
      ensures y in scales' ==>
                scales'[y] == if RecoversScale(namespace, prior, current + {k}, scales0, y)
                              then OldReplicas(prior, y.ref) else scales0[y]
    {
      if y != x {
        assert RecoversScale(namespace, prior, current + {k}, scales0, y) ==
               RecoversScale(namespace, prior, current, scales0, y);
      }
    }
  }

  /** The loop over the targets found now (idle.go:454-465): a target also
      recorded before lends its recorded count to a missing or zero scale, and
      leaves the index. */
  method RecoverScales(namespace: string, oldTargets: seq<RecordedScaleReference>,
                       oldTargetsSet0: map<CrossGroupObjectReference, nat>, scaleRefs: seq<RecordedScaleReference>,
                       scales0: map<NamespacedCrossGroupObjectReference, Int32>)
    returns (oldTargetsSet: map<CrossGroupObjectReference, nat>, scales: map<NamespacedCrossGroupObjectReference, Int32>)
    requires oldTargetsSet0 == IndexByKey(oldTargets)
    requires UniqueKeys(scaleRefs)
    ensures oldTargetsSet == IndexByKey(oldTargets) - KeySet(scaleRefs)
    ensures ScalesAfterMerge(namespace, oldTargets, KeySet(scaleRefs), scales0, scales)
  {
    oldTargetsSet, scales := oldTargetsSet0, scales0;
    for j := 0 to |scaleRefs|
      invariant oldTargetsSet == IndexByKey(oldTargets) - KeySet(scaleRefs[..j])
      invariant ScalesAfterMerge(namespace, oldTargets, KeySet(scaleRefs[..j]), scales0, scales)
    {
      KeySetPrefix(scaleRefs, j);
      var newScaleRef := scaleRefs[j];
      UniqueNotInPrefix(scaleRefs, j);
      RecoverStep(namespace, oldTargets, KeySet(scaleRefs[..j]), scales0, scales, newScaleRef.ref);
      assert newScaleRef.ref in oldTargetsSet <==> newScaleRef.ref in KeySet(oldTargets);
      if newScaleRef.ref in oldTargetsSet {
        var oldTargetInd := oldTargetsSet[newScaleRef.ref];
        assert oldTargets[oldTargetInd].replicas == OldReplicas(oldTargets, newScaleRef.ref);
        var namespacedScaleRef := Namespaced(newScaleRef.ref, namespace);
        if namespacedScaleRef !in scales || scales[namespacedScaleRef] == 0 {
          scales := scales[namespacedScaleRef := oldTargets[oldTargetInd].replicas];
        }
        oldTargetsSet := oldTargetsSet - {newScaleRef.ref};
      }
    }
    assert scaleRefs[..|scaleRefs|] == scaleRefs;
  }

  /** The loop adding the targets only recorded before (idle.go:468-470), each
      with its last recorded entry. */
  method AppendRecordedOnly(oldTargets: seq<RecordedScaleReference>, oldTargetsSet: map<CrossGroupObjectReference, nat>,
                            scaleRefs0: seq<RecordedScaleReference>)
    returns (scaleRefs: seq<RecordedScaleReference>)
    requires UniqueKeys(scaleRefs0)
    requires oldTargetsSet == IndexByKey(oldTargets) - KeySet(scaleRefs0)
    ensures |scaleRefs| >= |scaleRefs0| && scaleRefs[..|scaleRefs0|] == scaleRefs0
    ensures UniqueKeys(scaleRefs) && KeySet(scaleRefs) == KeySet(scaleRefs0) + KeySet(oldTargets)
    ensures forall i :: |scaleRefs0| <= i < |scaleRefs| ==>
              scaleRefs[i].ref !in KeySet(scaleRefs0) && scaleRefs[i].ref in KeySet(oldTargets) &&
              scaleRefs[i] == oldTargets[IndexByKey(oldTargets)[scaleRefs[i].ref]]
  {
    scaleRefs := scaleRefs0;
    var targetsLeft := oldTargetsSet.Keys;
    while targetsLeft != {}
      invariant targetsLeft <= oldTargetsSet.Keys
      invariant |scaleRefs| >= |scaleRefs0| && scaleRefs[..|scaleRefs0|] == scaleRefs0
      invariant UniqueKeys(scaleRefs)
      invariant KeySet(scaleRefs) == KeySet(scaleRefs0) + (oldTargetsSet.Keys - targetsLeft)
      invariant forall i :: |scaleRefs0| <= i < |scaleRefs| ==>
                  scaleRefs[i].ref !in KeySet(scaleRefs0) && scaleRefs[i].ref in KeySet(oldTargets) &&
                  scaleRefs[i] == oldTargets[IndexByKey(oldTargets)[scaleRefs[i].ref]]
      decreases targetsLeft
    {
      var k :| k in targetsLeft;
      var target := oldTargets[oldTargetsSet[k]];
      KeySetAppend(scaleRefs, target);
      assert (scaleRefs + [target])[..|scaleRefs0|] == scaleRefs[..|scaleRefs0|];
      scaleRefs := scaleRefs + [target];
      targetsLeft := targetsLeft - {k};
    }
  }

  /** The final pass (idle.go:473-488): each entry's count is settled by Replicas. */
  method SettleReplicas(namespace: string, entries: seq<RecordedScaleReference>,
                        scales: map<NamespacedCrossGroupObjectReference, Int32>)
    returns (scaleRefs: seq<RecordedScaleReference>)
    ensures |scaleRefs| == |entries|
    ensures forall j :: 0 <= j < |scaleRefs| ==>
              scaleRefs[j].ref == entries[j].ref &&
              scaleRefs[j].replicas == Replicas(scales, Namespaced(entries[j].ref, namespace), entries[j].replicas)
  {
    scaleRefs := entries;
    for i := 0 to |scaleRefs|
      invariant |scaleRefs| == |entries|
      invariant forall j :: 0 <= j < i ==>
                  scaleRefs[j].ref == entries[j].ref &&
                  scaleRefs[j].replicas == Replicas(scales, Namespaced(entries[j].ref, namespace), entries[j].replicas)
      invariant forall j :: i <= j < |scaleRefs| ==> scaleRefs[j] == entries[j]
    {
      var scaleRef := scaleRefs[i];
      var namespacedScaleRef := Namespaced(scaleRef.ref, namespace);
      var newScale: Int32;
      if namespacedScaleRef in scales && scales[namespacedScaleRef] != 0 {
        newScale := scales[namespacedScaleRef];
      } else {
        newScale := 1;
        if scaleRef.replicas != 0 {
          newScale := scaleRef.replicas;
        }
      }
      scaleRefs := scaleRefs[i := scaleRef.(replicas := newScale)];
    }
  }

  /** pairScalesWithScaleRefs (idle.go:428-491). `scales` is the caller's map of
      scales read so far, which the source updates in place; it is passed in and
      returned. The targets found now come first, in the order the set yields
      them, then the targets only recorded before. */
  method PairScalesWithScaleRefs(serviceName: NamespacedName, annotations: map<string, string>,
                                 rawScaleRefs: set<CrossGroupObjectReference>,
                                 scales0: map<NamespacedCrossGroupObjectReference, Int32>,
                                 decode: string -> Option<seq<RecordedScaleReference>>)
    returns (r: Result<seq<RecordedScaleReference>>, scales: map<NamespacedCrossGroupObjectReference, Int32>)
    ensures var stored := StoredTargetsOf(annotations, decode);
            var prior := if stored.Parsed? then stored.targets else [];
            && (r.Err? <==> stored.Corrupt?)
            && (r.Err? ==> r.error == CorruptAnnotation(serviceName) && scales == scales0)
            && (r.Ok? ==> Lists(r.value, MergedReplicas(serviceName.namespace, prior, rawScaleRefs, scales0)))
            && (r.Ok? ==> ScalesAfterMerge(serviceName.namespace, prior, rawScaleRefs, scales0, scales))
    ensures r.Ok? ==> forall i, j :: 0 <= i < j < |r.value| && r.value[j].ref in rawScaleRefs ==>
                        r.value[i].ref in rawScaleRefs
  {
    var ns := serviceName.namespace;
    var scaleRefs := CurrentEntries(rawScaleRefs);
    ghost var initial := scaleRefs;
    ghost var prior: seq<RecordedScaleReference> := [];
    scales := scales0;
    if UnidleTargetAnnotation in annotations {
      var parsed := decode(annotations[UnidleTargetAnnotation]);
      if parsed.None? {
        return Err(CorruptAnnotation(serviceName)), scales0;
      }
      var oldTargets := parsed.value;
      prior := oldTargets;
      var oldTargetsSet := IndexTargets(oldTargets);
      oldTargetsSet, scales := RecoverScales(ns, oldTargets, oldTargetsSet, scaleRefs, scales0);
      scaleRefs := AppendRecordedOnly(oldTargets, oldTargetsSet, scaleRefs);
    }
    EntriesBeforeSettling(prior, rawScaleRefs, initial, scaleRefs);
    ghost var entries := scaleRefs;
    scaleRefs := SettleReplicas(ns, scaleRefs, scales);
    MergedListed(ns, prior, rawScaleRefs, scales0, scales, entries, scaleRefs);
    return Ok(scaleRefs), scales;
  }

  /** The list before the final pass: the targets found now with 0 replicas,
      then the targets only recorded before with their last entries. */
  lemma EntriesBeforeSettling(prior: seq<RecordedScaleReference>, current: set<CrossGroupObjectReference>,
                              initial: seq<RecordedScaleReference>, entries: seq<RecordedScaleReference>)
    requires KeySet(initial) == current && forall i :: 0 <= i < |initial| ==> initial[i].replicas == 0
    requires |entries| >= |initial| && entries[..|initial|] == initial
    requires forall i :: |initial| <= i < |entries| ==>
               entries[i].ref !in current && entries[i].ref in KeySet(prior) &&
               entries[i] == prior[IndexByKey(prior)[entries[i].ref]]
    ensures forall i :: 0 <= i < |entries| ==>
              entries[i].ref in current + KeySet(prior) && entries[i] == Entry(prior, current, entries[i].ref)
    ensures forall i, j :: 0 <= i < j < |entries| && entries[j].ref in current ==> entries[i].ref in current
  {
    forall i | 0 <= i < |initial|
      ensures entries[i].ref in current && entries[i] == RecordedScaleReference(entries[i].ref, 0)
    {
      assert entries[i] == entries[..|initial|][i];
      KeySetHas(initial, i);
    }
  }

  lemma {:induction false} KeySetSameRefs(a: seq<RecordedScaleReference>, b: seq<RecordedScaleReference>)
    requires |a| == |b| && forall i :: 0 <= i < |a| ==> a[i].ref == b[i].ref
    ensures KeySet(a) == KeySet(b)
  {
    if a != [] {
      KeySetSameRefs(a[..|a| - 1], b[..|b| - 1]);
    }
  }

  /** The settled entries list the merged map. */
  lemma MergedListed(namespace: string, prior: seq<RecordedScaleReference>, current: set<CrossGroupObjectReference>,
                     scales0: map<NamespacedCrossGroupObjectReference, Int32>,
                     scales: map<NamespacedCrossGroupObjectReference, Int32>,
                     entries: seq<RecordedScaleReference>, settled: seq<RecordedScaleReference>)
    requires ScalesAfterMerge(namespace, prior, current, scales0, scales)
    requires UniqueKeys(entries) && KeySet(entries) == current + KeySet(prior)
    requires forall i :: 0 <= i < |entries| ==>
               entries[i].ref in current + KeySet(prior) && entries[i] == Entry(prior, current, entries[i].ref)
    requires |settled| == |entries|
    requires forall j :: 0 <= j < |settled| ==>
               settled[j].ref == entries[j].ref &&
               settled[j].replicas == Replicas(scales, Namespaced(entries[j].ref, namespace), entries[j].replicas)
    ensures Lists(settled, MergedReplicas(namespace, prior, current, scales0))
  {
    KeySetSameRefs(settled, entries);
    forall j | 0 <= j < |settled|
      ensures settled[j].replicas == MergedReplicas(namespace, prior, current, scales0)[settled[j].ref]
    {
      SettledIsIntended(namespace, prior, current, scales0, scales, entries[j].ref);
    }
  }

  // ---------------------------------------------------------------------------
  // Properties of the merge.

  /** What the merge promises for each target: a live non-zero scale wins; a
      target with no live scale keeps a non-zero recorded count; otherwise 1.
      A target recorded before but not found now stays in the list. */
  lemma MergeRules(namespace: string, prior: seq<RecordedScaleReference>, current: set<CrossGroupObjectReference>,
                   scales: map<NamespacedCrossGroupObjectReference, Int32>, k: CrossGroupObjectReference)
    requires k in current || k in KeySet(prior)
    ensures var m := MergedReplicas(namespace, prior, current, scales);
            var x := Namespaced(k, namespace);
            && k in m && m[k] != 0
            && (LiveScale(scales, x) ==> m[k] == scales[x])
            && (!LiveScale(scales, x) && k in KeySet(prior) && OldReplicas(prior, k) != 0 ==> m[k] == OldReplicas(prior, k))
            && (!LiveScale(scales, x) && (k !in KeySet(prior) || OldReplicas(prior, k) == 0) ==> m[k] == 1)
  {
  }

  /** Reading back a list the merge produced gives, for each listed target, the
      count it was listed with. */
  lemma ListedReadsBack(out: seq<RecordedScaleReference>, m: map<CrossGroupObjectReference, Int32>, k: CrossGroupObjectReference)
    requires Lists(out, m) && k in m
    ensures k in KeySet(out) && OldReplicas(out, k) == m[k]
  {
  }

  /** Idempotence: merging again against the list just produced, with the same
      targets or fewer and with live scales that are zero, missing or equal to
      the merged counts, yields the same counts. This covers both running the
      merge twice with the live scales held constant and re-idling a service
      whose targets were already scaled to zero. */
  lemma {:induction false} MergeIdempotent(namespace: string, prior: seq<RecordedScaleReference>,
                                           current: set<CrossGroupObjectReference>,
                                           scales: map<NamespacedCrossGroupObjectReference, Int32>,
                                           out: seq<RecordedScaleReference>, current2: set<CrossGroupObjectReference>,
                                           scales2: map<NamespacedCrossGroupObjectReference, Int32>)
    requires Lists(out, MergedReplicas(namespace, prior, current, scales))
    requires current2 <= KeySet(out)
    requires forall k :: k in KeySet(out) && LiveScale(scales2, Namespaced(k, namespace)) ==>
                           scales2[Namespaced(k, namespace)] == MergedReplicas(namespace, prior, current, scales)[k]
    ensures MergedReplicas(namespace, out, current2, scales2) == MergedReplicas(namespace, prior, current, scales)
  {
    var m1 := MergedReplicas(namespace, prior, current, scales);
    var m2 := MergedReplicas(namespace, out, current2, scales2);
    forall k | k in m1
      ensures m2[k] == m1[k]
    {
      ListedReadsBack(out, m1, k);
    }
  }

  /** setIdleAnnotations (idle.go:494-505): the unidle-targets annotation is set
      to the encoded list and the idled-at annotation to the time, in RFC 3339
      form; `encode` stands for json.Marshal and `nowTime` for the formatted time. */
  function SetIdleAnnotations(annotations: map<string, string>, scaleRefs: seq<RecordedScaleReference>, nowTime: string,
                              encode: seq<RecordedScaleReference> -> string): (r: map<string, string>)
    ensures r.Keys == annotations.Keys + {UnidleTargetAnnotation, IdledAtAnnotation}
    ensures r[UnidleTargetAnnotation] == encode(scaleRefs) && r[IdledAtAnnotation] == nowTime
    ensures forall k :: k in annotations && k != UnidleTargetAnnotation && k != IdledAtAnnotation ==> r[k] == annotations[k]
  {
    annotations[UnidleTargetAnnotation := encode(scaleRefs)][IdledAtAnnotation := nowTime]
  }

  /** Running idle twice on the same service: the list written by the first run
      is what the second run reads back, and when the targets were scaled to
      zero in between (or their scales are unchanged) the second merge
      reproduces the first one's counts. */
  lemma ReidleReproducesCounts(namespace: string, annotations: map<string, string>, prior: seq<RecordedScaleReference>,
                               current: set<CrossGroupObjectReference>,
                               scales: map<NamespacedCrossGroupObjectReference, Int32>,
                               out: seq<RecordedScaleReference>, nowTime: string,
                               encode: seq<RecordedScaleReference> -> string,
                               decode: string -> Option<seq<RecordedScaleReference>>,
                               scales2: map<NamespacedCrossGroupObjectReference, Int32>)
    requires Lists(out, MergedReplicas(namespace, prior, current, scales))
    requires decode(encode(out)) == Some(out)
    requires forall k :: k in KeySet(out) ==> !LiveScale(scales2, Namespaced(k, namespace))
    ensures var stored := StoredTargetsOf(SetIdleAnnotations(annotations, out, nowTime, encode), decode);
            stored == Parsed(out) &&
            MergedReplicas(namespace, stored.targets, current, scales2) == MergedReplicas(namespace, prior, current, scales)
  {
    MergeIdempotent(namespace, prior, current, scales, out, current, scales2);
  }

  /** The re-idle scenario: a controller idled once from 3 replicas is recorded
      with 3; idling again once its live scale is 0 records 3 again, not 1 or 0. */
  lemma ReidleScenario()
    ensures var app := CrossGroupObjectReference("DeploymentConfig", "app", "apps");
            var x := Namespaced(app, "ns");
            && MergedReplicas("ns", [], {app}, map[x := 3]) == map[app := 3]
            && MergedReplicas("ns", [RecordedScaleReference(app, 3)], {app}, map[x := 0]) == map[app := 3]
  {
    var app := CrossGroupObjectReference("DeploymentConfig", "app", "apps");
    assert KeySet([]) == {};
    assert KeySet([RecordedScaleReference(app, 3)]) == {app} by {
      assert [RecordedScaleReference(app, 3)][..0] == [];
    }
  }
}
