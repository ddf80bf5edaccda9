/** Value types shared by the idling model: the Kubernetes references the
    command compares as map keys, the objects it reads, and the small pure
    helpers of pkg/oc/cli/idle/idle.go that only build values. */
module IdleTypes {
  import opened Wrappers

  /** Replica counts are Go `int32`; the merge never does arithmetic on them. */
  type Int32 = x: int | -0x8000_0000 <= x < 0x8000_0000

  /** Annotation keys of the unidling API package (that package is not part of this model). */
  const UnidleTargetAnnotation: string := "idling.alpha.openshift.io/unidle-targets"
  const IdledAtAnnotation: string := "idling.alpha.openshift.io/idled-at"
  const PreviousScaleAnnotation: string := "idling.alpha.openshift.io/previous-scale"

  /** metav1.OwnerReference; `controller` and `blockOwnerDeletion` are `*bool`. */
  datatype OwnerReference = OwnerReference(
    apiVersion: string, kind: string, name: string, uid: string,
    controller: Option<bool>, blockOwnerDeletion: Option<bool>)

  /** corev1.ObjectReference, with the fields that take part in map-key equality. */
  datatype ObjectReference = ObjectReference(
    kind: string, namespace: string, name: string, uid: string,
    apiVersion: string, resourceVersion: string, fieldPath: string)

  datatype GroupKind = GroupKind(group: string, kind: string)

  /** unidlingapi.CrossGroupObjectReference: the namespace-free identity of a scalable. */
  datatype CrossGroupObjectReference = CrossGroupObjectReference(kind: string, name: string, group: string)

  /** namespacedOwnerReference (idle.go:332-335). */
  datatype NamespacedOwnerReference = NamespacedOwnerReference(owner: OwnerReference, namespace: string)

  /** namespacedCrossGroupObjectReference (idle.go:340-343). */
  datatype NamespacedCrossGroupObjectReference =
    NamespacedCrossGroupObjectReference(ref: CrossGroupObjectReference, namespace: string)

  /** unidlingapi.RecordedScaleReference: one entry of the unidle-targets annotation. */
  datatype RecordedScaleReference = RecordedScaleReference(ref: CrossGroupObjectReference, replicas: Int32)

  /** types.NamespacedName, identity of an endpoints object. */
  datatype NamespacedName = NamespacedName(namespace: string, name: string)

  datatype Pod = Pod(namespace: string, name: string, ownerReferences: seq<OwnerReference>)

  /** The metadata of a loaded controller (a metav1.Object). */
  datatype Controller = Controller(namespace: string, name: string, ownerReferences: seq<OwnerReference>)

  datatype EndpointAddress = EndpointAddress(ip: string, targetRef: Option<ObjectReference>)
  datatype EndpointSubset = EndpointSubset(addresses: seq<EndpointAddress>)
  datatype Endpoints = Endpoints(
    namespace: string, name: string, subsets: seq<EndpointSubset>, annotations: map<string, string>)

  /** The errors the core reports; each names the object the source's message names. */
  datatype IdleError =
    | VisitFailed                                        // error handed to the visitor (idle.go:279-281)
    | NotEndpoints(resource: string)                     // idle.go:284-286
    | PodLookupFailed(pod: ObjectReference)              // idle.go:370-372
    | NoCreatorReference(namespace: string, name: string) // idle.go:386-388
    | ControllerLoadFailed(controller: NamespacedOwnerReference) // idle.go:396-398
    | CreatorUnparsable(controller: NamespacedOwnerReference)    // idle.go:411-413
    | CorruptAnnotation(service: NamespacedName)         // idle.go:445-447
    | ScalableResourcesFailed(service: NamespacedName, cause: IdleError) // idle.go:292-294

  datatype Result<T> = Ok(value: T) | Err(error: IdleError)

  /** metav1.GetControllerOf: the first owner reference whose `controller` flag is set to true. */
  function ControllerOf(refs: seq<OwnerReference>): (r: Option<OwnerReference>)
    ensures r.Some? ==> r.value in refs && r.value.controller == Some(true)
    ensures r.None? <==> forall i :: 0 <= i < |refs| ==> refs[i].controller != Some(true)
    ensures r.Some? ==> exists i :: 0 <= i < |refs| && refs[i] == r.value &&
                          forall j :: 0 <= j < i ==> refs[j].controller != Some(true)
  {
    if refs == [] then None
    else if refs[0].controller == Some(true) then Some(refs[0])
    else
      var r := ControllerOf(refs[1..]);
      assert forall j :: 1 <= j < |refs| ==> refs[j] == refs[1..][j - 1];
      r
  }

  /** normalizedNSOwnerRef: attach the namespace and clear the two pointer flags,
      so that references differing only in those flags become equal keys. */
  function NormalizedNSOwnerRef(namespace: string, ownerRef: OwnerReference): (r: NamespacedOwnerReference)
    ensures r.namespace == namespace
    ensures r.owner.controller == None && r.owner.blockOwnerDeletion == None
    ensures r.owner.apiVersion == ownerRef.apiVersion && r.owner.kind == ownerRef.kind
    ensures r.owner.name == ownerRef.name && r.owner.uid == ownerRef.uid
  {
    NamespacedOwnerReference(ownerRef.(controller := None, blockOwnerDeletion := None), namespace)
  }

  /** Two owner references normalise to the same key exactly when they agree on
      the namespace and on every field other than the two flags. */
  lemma NormalizedKeysEqual(ns1: string, a: OwnerReference, ns2: string, b: OwnerReference)
    ensures NormalizedNSOwnerRef(ns1, a) == NormalizedNSOwnerRef(ns2, b) <==>
            ns1 == ns2 && a.apiVersion == b.apiVersion && a.kind == b.kind &&
            a.name == b.name && a.uid == b.uid
  {
  }

  /** makeCrossGroupObjRef: the group comes from schema.ParseGroupVersion, which
      is not part of this model and is passed in as `parseGroup` (None = parse error). */
  function MakeCrossGroupObjRef(ref: OwnerReference, parseGroup: string -> Option<string>):
    (r: Option<CrossGroupObjectReference>)
    ensures r.None? <==> parseGroup(ref.apiVersion).None?
    ensures r.Some? ==> r.value.kind == ref.kind && r.value.name == ref.name &&
                        r.value.group == parseGroup(ref.apiVersion).value
  {
    match parseGroup(ref.apiVersion)
    case None => None
    case Some(group) => Some(CrossGroupObjectReference(ref.kind, ref.name, group))
  }

  // ---------------------------------------------------------------------------
  // The pod -> immediate controller step of findScalableResourcesForEndpoints,
  // as written and as intended.

  datatype StepOutcome = Panicked | Failed(error: IdleError) | Resolved(ref: NamespacedOwnerReference)

  /** idle.go:384-389 AS WRITTEN: `normalizedNSOwnerRef` dereferences the
      controller reference before the nil check, so a pod without a controller
      panics instead of reaching the error return. */
  function ImmediateControllerAsWritten(pod: Pod): (r: StepOutcome)
    ensures r.Panicked? <==> ControllerOf(pod.ownerReferences).None?
    ensures !r.Failed?
  {
    match ControllerOf(pod.ownerReferences)
    case None => Panicked    // nil pointer dereference inside normalizedNSOwnerRef
    case Some(c) => Resolved(NormalizedNSOwnerRef(pod.namespace, c))
  }

  /** idle.go:384-389 as intended: the nil check comes first and yields the
      "no creator reference listed" error. The rest of the model uses this one. */
  function ImmediateController(pod: Pod): (r: StepOutcome)
    ensures !r.Panicked?
    ensures r.Failed? <==> ControllerOf(pod.ownerReferences).None?
    ensures r.Failed? ==> r.error == NoCreatorReference(pod.namespace, pod.name)
    ensures r.Resolved? ==> r.ref == NormalizedNSOwnerRef(pod.namespace, ControllerOf(pod.ownerReferences).value)
  {
    match ControllerOf(pod.ownerReferences)
    case None => Failed(NoCreatorReference(pod.namespace, pod.name))
    case Some(c) => Resolved(NormalizedNSOwnerRef(pod.namespace, c))
  }

  /** The two agree on every pod that has a controller, and differ exactly on
      the pods that have none. */
  lemma ImmediateControllerDiscrepancy(pod: Pod)
    ensures ImmediateControllerAsWritten(pod) != ImmediateController(pod) <==>
            ControllerOf(pod.ownerReferences).None?
  {
  }

  /** A concrete pod that shows the discrepancy: its only owner reference is
      not a controller reference. */
  lemma OrphanPodPanicsAsWritten()
    ensures var owner := OwnerReference("v1", "ReplicationController", "rc", "u1", Some(false), None);
            var pod := Pod("ns", "web-1", [owner]);
            ImmediateControllerAsWritten(pod) == Panicked &&
            ImmediateController(pod) == Failed(NoCreatorReference("ns", "web-1"))
  {
    var owner := OwnerReference("v1", "ReplicationController", "rc", "u1", Some(false), None);
    assert ControllerOf([owner]) == None;
  }

  // ---------------------------------------------------------------------------
  // Decimal rendering of a replica count, as fmt's "%v" prints an int32
  // (used for the previous-scale annotation, idle.go:593-596).

  function Digit(d: nat): (c: char)
    requires d < 10
  {
    "0123456789"[d]
  }

  function DigitValue(c: char): (d: nat)
    ensures d < 10
  {
    if '0' <= c <= '9' then (c as int - '0' as int) else 0
  }

  predicate AllDigits(s: string) {
    forall i :: 0 <= i < |s| ==> '0' <= s[i] <= '9'
  }

  function NatToDecimal(n: nat): (s: string)
    ensures |s| >= 1 && AllDigits(s)
    ensures s[0] == '0' ==> n == 0
  {
    if n < 10 then [Digit(n)] else NatToDecimal(n / 10) + [Digit(n % 10)]
  }

  function DecimalToNat(s: string): (n: nat)
  {
    if s == [] then 0 else DecimalToNat(s[..|s| - 1]) * 10 + DigitValue(s[|s| - 1])
  }

  /** "%v" of an integer: a minus sign for negatives, then the digits. */
  function FormatInt(n: int): (s: string)
    ensures |s| >= 1
    ensures (s[0] == '-') <==> n < 0
  {
    if n < 0 then "-" + NatToDecimal(-n) else NatToDecimal(n)
  }

  function ParseInt(s: string): (n: int)
  {
    if |s| > 0 && s[0] == '-' then -(DecimalToNat(s[1..]) as int) else DecimalToNat(s)
  }

  lemma DigitRoundTrip(d: nat)
    requires d < 10
    ensures DigitValue(Digit(d)) == d
  {
  }

  lemma {:induction false} NatDecimalRoundTrip(n: nat)
    ensures DecimalToNat(NatToDecimal(n)) == n
  {
    if n < 10 {
      DigitRoundTrip(n);
      assert [Digit(n)][..0] == [];
    } else {
      var q, d := n / 10, n % 10;
      assert n == q * 10 + d;
      NatDecimalRoundTrip(q);
      DigitRoundTrip(d);
      var s := NatToDecimal(q) + [Digit(d)];
      assert s[..|s| - 1] == NatToDecimal(q);
      assert DecimalToNat(s) == DecimalToNat(NatToDecimal(q)) * 10 + DigitValue(Digit(d));
    }
  }

  /** The previous-scale annotation reads back as the replica count it recorded. */
  lemma FormatIntRoundTrip(n: int)
    ensures ParseInt(FormatInt(n)) == n
  {
    if n < 0 {
      var digits := NatToDecimal(-n);
      NatDecimalRoundTrip(-n);
      assert ("-" + digits)[1..] == digits;
      assert ParseInt("-" + digits) == -(DecimalToNat(digits) as int);
    } else {
      var digits := NatToDecimal(n);
      NatDecimalRoundTrip(n);
      assert digits[0] != '-';
      assert ParseInt(digits) == DecimalToNat(digits);
    }
  }

  /** The annotations the scale annotater's callback (idle.go:593-596) adds to a
      controller before scaling it to zero: the idle time and the pre-idle scale. */
  function ControllerIdleAnnotations(currentReplicas: Int32, annotations: map<string, string>, nowTime: string):
    (r: map<string, string>)
    ensures r.Keys == annotations.Keys + {IdledAtAnnotation, PreviousScaleAnnotation}
    ensures r[IdledAtAnnotation] == nowTime
    ensures ParseInt(r[PreviousScaleAnnotation]) == currentReplicas
    ensures forall k :: k in annotations && k != IdledAtAnnotation && k != PreviousScaleAnnotation ==>
                          r[k] == annotations[k]
  {
    FormatIntRoundTrip(currentReplicas);
    annotations[IdledAtAnnotation := nowTime][PreviousScaleAnnotation := FormatInt(currentReplicas)]
  }
}
