/** The command itself (pkg/oc/cli/idle/idle.go): reading the list of targets,
    then RunIdle's three passes over the discovered targets — read every
    scale, annotate every endpoints object, scale every scalable resource to
    zero. Go's map iteration order is unspecified, so each pass picks its
    next key with `:|`; the trace of events records the order taken.
    Everything that talks to the server is a field of `Env`. */
module IdleRun {
  import opened Wrappers
  import opened IdleTypes
  import opened IdleDiscovery
  import opened IdleMerge

  // ---------------------------------------------------------------------------
  // scanLinesFromFile (idle.go:160-191).

  /** The lines kept from an input: every non-empty one, in order. */
  function NonEmptyLines(input: seq<string>): seq<string> {
    if input == [] then []
    else NonEmptyLines(input[..|input| - 1]) + if input[|input| - 1] == "" then [] else [input[|input| - 1]]
  }

  /** A line is kept exactly when it is in the input and is not empty. */
  lemma {:induction false} NonEmptyLinesMembers(input: seq<string>, line: string)
    ensures line in NonEmptyLines(input) <==> line in input && line != ""
  {
    if input != [] {
      var n := |input| - 1;
      NonEmptyLinesMembers(input[..n], line);
      assert input == input[..n] + [input[n]];
    }
  }

  /** Filtering twice keeps what filtering once kept. */
  lemma {:induction false} NonEmptyLinesIdempotent(input: seq<string>)
    ensures NonEmptyLines(NonEmptyLines(input)) == NonEmptyLines(input)
  {
    if input != [] {
      var n := |input| - 1;
      var kept := NonEmptyLines(input[..n]);
      NonEmptyLinesIdempotent(input[..n]);
      if input[n] != "" {
        assert NonEmptyLines(input) == kept + [input[n]];
        assert (kept + [input[n]])[..|kept|] == kept;
        assert NonEmptyLines(kept + [input[n]]) == NonEmptyLines(kept) + [input[n]];
      } else {
        assert NonEmptyLines(input) == kept;
      }
    }
  }

  /** The scanning loop (idle.go:175-186). */
  method ScanLines(input: seq<string>) returns (lines: seq<string>)
    ensures lines == NonEmptyLines(input)
  {
    lines := [];
    for i := 0 to |input|
      invariant lines == NonEmptyLines(input[..i])
    {
      assert input[..i + 1][..i] == input[..i];
      if input[i] == "" {
        continue;
      }
      lines := lines + [input[i]];
    }
    assert input[..|input|] == input;
  }

  datatype InputError = NoFilename | ReadFailed(filename: string) | StdinFailed

  datatype LinesResult = Lines(lines: seq<string>) | InputFailed(error: InputError)

  /** scanLinesFromFile (idle.go:160-191): "-" reads standard input, an empty
      name is refused, any other name is a file to read; `stdin` stands for
      scanning standard input and `readFile` for opening and scanning a file,
      None for a failure of either. */
  method ScanLinesFromFile(filename: string, stdin: Option<seq<string>>, readFile: string -> Option<seq<string>>)
    returns (r: LinesResult)
    ensures r.InputFailed? <==>
              filename == "" || (filename == "-" && stdin.None?) || (filename !in {"", "-"} && readFile(filename).None?)
    ensures r.InputFailed? ==>
              r.error == if filename == "" then NoFilename else if filename == "-" then StdinFailed else ReadFailed(filename)
    ensures r.Lines? ==> r.lines == NonEmptyLines(if filename == "-" then stdin.value else readFile(filename).value)
    ensures r.Lines? ==> forall i :: 0 <= i < |r.lines| ==> r.lines[i] != ""
  {
    var input;
    if filename == "-" {
      if stdin.None? {
        return InputFailed(StdinFailed);
      }
      input := stdin.value;
    } else if filename == "" {
      return InputFailed(NoFilename);
    } else {
      var read := readFile(filename);
      if read.None? {
        return InputFailed(ReadFailed(filename));
      }
      input := read.value;
    }
    var lines := ScanLines(input);
    forall i | 0 <= i < |lines| ensures lines[i] != "" {
      NonEmptyLinesMembers(input, lines[i]);
    }
    return Lines(lines);
  }

  // ---------------------------------------------------------------------------
  // What RunIdle does, as a trace of events.

  datatype Event =
    | DiscoveryWarning(errors: seq<IdleError>)                                 // idle.go:575-580
    | GetScale(scalable: NamespacedCrossGroupObjectReference, ok: bool)       // idle.go:602-613
    | MergeRejected(service: NamespacedName)                                  // idle.go:620-624
    | NothingToIdle(service: NamespacedName)                                  // idle.go:626-633
    | Patch(service: NamespacedName, targets: seq<RecordedScaleReference>,
            annotations: map<string, string>, ok: bool)                       // idle.go:635-681
    | Marked(service: NamespacedName, targets: seq<RecordedScaleReference>)   // idle.go:684-688
    | UpdateScale(scalable: NamespacedCrossGroupObjectReference, namespace: string, ok: bool) // idle.go:694-700
    | Idled(scalable: NamespacedCrossGroupObjectReference, namespace: string) // idle.go:704

  /** The events after which RunIdle sets hadError. */
  predicate IsError(e: Event) {
    (e.GetScale? && !e.ok) || e.NothingToIdle? || (e.Patch? && !e.ok) || (e.UpdateScale? && !e.ok)
  }

  /** The server, the clock and the codecs as RunIdle sees them. */
  datatype Env = Env(
    getScale: (string, CrossGroupObjectReference) -> Option<Int32>,  // scaleAnnotater.GetObjectWithScale
    patch: (NamespacedName, map<string, string>) -> bool,           // idle.go:635-681 up to patchObj
    updateScale: (string, CrossGroupObjectReference) -> bool,        // scaleAnnotater.UpdateObjectScale
    decode: string -> Option<seq<RecordedScaleReference>>,          // json.Unmarshal
    encode: seq<RecordedScaleReference> -> string,                  // json.Marshal
    nowTime: string)                                                // time.Now in RFC 3339 form

  // ---------------------------------------------------------------------------
  // First pass: read the scales (idle.go:601-613).

  /** The references a failed scale read removes from service `s`'s set,
      among the scalables in `done`. */
  function Dropped(byScalable: map<NamespacedCrossGroupObjectReference, NamespacedName>,
                   getScale: (string, CrossGroupObjectReference) -> Option<Int32>,
                   done: set<NamespacedCrossGroupObjectReference>, s: NamespacedName): set<CrossGroupObjectReference>
    requires done <= byScalable.Keys
  {
    set x | x in done && byScalable[x] == s && getScale(s.namespace, x.ref).None? :: x.ref
  }

  /** The scalables a sequence of events reads a scale for. */
  function ScaleReads(events: seq<Event>): set<NamespacedCrossGroupObjectReference> {
    set i | 0 <= i < |events| && events[i].GetScale? :: events[i].scalable
  }

  /** `events` reads each scalable of `done` exactly once, recording whether it could. */
  ghost predicate ReadsEachOnce(byScalable: map<NamespacedCrossGroupObjectReference, NamespacedName>,
                                getScale: (string, CrossGroupObjectReference) -> Option<Int32>,
                                done: set<NamespacedCrossGroupObjectReference>, events: seq<Event>)
  {
    && (forall i :: 0 <= i < |events| ==>
          events[i].GetScale? && events[i].scalable in done && events[i].scalable in byScalable &&
          events[i].ok == getScale(byScalable[events[i].scalable].namespace, events[i].scalable.ref).Some?)
    && (forall i, j :: 0 <= i < j < |events| ==> events[i].scalable != events[j].scalable)
    && ScaleReads(events) == done
  }

  lemma DroppedStep(byScalable: map<NamespacedCrossGroupObjectReference, NamespacedName>,
                    getScale: (string, CrossGroupObjectReference) -> Option<Int32>,
                    done: set<NamespacedCrossGroupObjectReference>, x: NamespacedCrossGroupObjectReference, s: NamespacedName)
    requires done <= byScalable.Keys && x in byScalable
    ensures Dropped(byScalable, getScale, done + {x}, s) ==
            Dropped(byScalable, getScale, done, s) +
            if byScalable[x] == s && getScale(s.namespace, x.ref).None? then {x.ref} else {}
  {
  }

  lemma ScaleReadsAppend(events: seq<Event>, e: Event)
    requires e.GetScale?
    ensures ScaleReads(events + [e]) == ScaleReads(events) + {e.scalable}
  {
    var all := events + [e];
    forall y | y in ScaleReads(all) ensures y in ScaleReads(events) + {e.scalable} {
      var i :| 0 <= i < |all| && all[i].GetScale? && all[i].scalable == y;
      if i < |events| {
        assert events[i] == all[i];
      }
    }
    forall y | y in ScaleReads(events) ensures y in ScaleReads(all) {
      var i :| 0 <= i < |events| && events[i].GetScale? && events[i].scalable == y;
      assert all[i] == events[i];
    }
    assert all[|events|] == e;
  }

  /** The services' sets once the scalables in `done` are read. */
  ghost predicate ServicesAfterReads(byScalable: map<NamespacedCrossGroupObjectReference, NamespacedName>,
                                     byService0: map<NamespacedName, IdleUpdateInfo>, env: Env,
                                     done: set<NamespacedCrossGroupObjectReference>,
                                     byService: map<NamespacedName, IdleUpdateInfo>)
    requires done <= byScalable.Keys
  {
    && byService.Keys == byService0.Keys
    && (forall s :: s in byService ==>
          byService[s].obj == byService0[s].obj &&
          byService[s].scaleRefs == byService0[s].scaleRefs - Dropped(byScalable, env.getScale, done, s))
  }

  /** The scales recorded once the scalables in `done` are read. */
  ghost predicate ScalesRead(byScalable: map<NamespacedCrossGroupObjectReference, NamespacedName>, env: Env,
                             done: set<NamespacedCrossGroupObjectReference>,
                             replicas: map<NamespacedCrossGroupObjectReference, Int32>,
                             toScale: map<NamespacedCrossGroupObjectReference, string>)
    requires done <= byScalable.Keys
  {
    && (forall x :: x in toScale <==> x in done && env.getScale(byScalable[x].namespace, x.ref).Some?)
    && replicas.Keys == toScale.Keys
    && (forall x :: x in toScale ==>
          toScale[x] == byScalable[x].namespace && replicas[x] == env.getScale(toScale[x], x.ref).value)
  }

  /** hadError is set exactly when some event is an error. */
  ghost predicate ErrorsFlagged(events: seq<Event>, hadError: bool) {
    hadError <==> exists i :: 0 <= i < |events| && IsError(events[i])
  }

  lemma ErrorsFlaggedAppend(events: seq<Event>, hadError: bool, e: Event)
    requires ErrorsFlagged(events, hadError)
    ensures ErrorsFlagged(events + [e], hadError || IsError(e))
  {
    var all := events + [e];
    if IsError(e) {
      assert IsError(all[|events|]);
    }
    if exists i :: 0 <= i < |all| && IsError(all[i]) {
      var i :| 0 <= i < |all| && IsError(all[i]);
      if i < |events| {
        assert IsError(events[i]);
      }
    }
    if hadError {
      var i :| 0 <= i < |events| && IsError(events[i]);
      assert IsError(all[i]);
    }
  }

  lemma ReadsEachOnceAppend(byScalable: map<NamespacedCrossGroupObjectReference, NamespacedName>,
                            getScale: (string, CrossGroupObjectReference) -> Option<Int32>,
                            done: set<NamespacedCrossGroupObjectReference>, events: seq<Event>,
                            x: NamespacedCrossGroupObjectReference)
    requires ReadsEachOnce(byScalable, getScale, done, events)
    requires x in byScalable && x !in done
    ensures ReadsEachOnce(byScalable, getScale, done + {x},
                          events + [GetScale(x, getScale(byScalable[x].namespace, x.ref).Some?)])
  {
    var e := GetScale(x, getScale(byScalable[x].namespace, x.ref).Some?);
    ScaleReadsAppend(events, e);
    var all := events + [e];
    forall i, j | 0 <= i < j < |all| ensures all[i].scalable != all[j].scalable {
      if j == |events| {
        assert all[i] == events[i];
        assert events[i].scalable in done;
      }
    }
  }

  /** The first pass's scale read for `x` (idle.go:603-612): a failure drops
      the reference from its service's set (the map shared through the
      service's entry) and is an error; a success records the replica count
      and the scalable to scale down later. */
  method CollectScale(byScalable: map<NamespacedCrossGroupObjectReference, NamespacedName>,
                      byService0: map<NamespacedName, IdleUpdateInfo>, env: Env,
                      ghost done: set<NamespacedCrossGroupObjectReference>, x: NamespacedCrossGroupObjectReference,
                      byService1: map<NamespacedName, IdleUpdateInfo>,
                      replicas1: map<NamespacedCrossGroupObjectReference, Int32>,
                      toScale1: map<NamespacedCrossGroupObjectReference, string>)
    returns (byService: map<NamespacedName, IdleUpdateInfo>,
             replicas: map<NamespacedCrossGroupObjectReference, Int32>,
             toScale: map<NamespacedCrossGroupObjectReference, string>, ok: bool)
    requires done <= byScalable.Keys && x in byScalable && x !in done
    requires ServicesAfterReads(byScalable, byService0, env, done, byService1)
    requires ScalesRead(byScalable, env, done, replicas1, toScale1)
    ensures ok == env.getScale(byScalable[x].namespace, x.ref).Some?
    ensures ServicesAfterReads(byScalable, byService0, env, done + {x}, byService)
    ensures ScalesRead(byScalable, env, done + {x}, replicas, toScale)
  {
    var svcName := byScalable[x];
    var scale := env.getScale(svcName.namespace, x.ref);
    byService, replicas, toScale := byService1, replicas1, toScale1;
    forall s {
      DroppedStep(byScalable, env.getScale, done, x, s);
    }
    if scale.None? {
      if svcName in byService {
        var svcInfo := byService[svcName];
        byService := byService[svcName := IdleUpdateInfo(svcInfo.obj, svcInfo.scaleRefs - {x.ref})];
      }
      return byService, replicas, toScale, false;
    }
    replicas := replicas[x := scale.value];
    toScale := toScale[x := svcName.namespace];
    ok := true;
  }

  /** The first pass's trace after one more scale read. */
  lemma ReadEventStep(byScalable: map<NamespacedCrossGroupObjectReference, NamespacedName>, env: Env,
                      done: set<NamespacedCrossGroupObjectReference>, x: NamespacedCrossGroupObjectReference,
                      events: seq<Event>, hadError: bool, ok: bool)
    requires x in byScalable && x !in done
    requires ok == env.getScale(byScalable[x].namespace, x.ref).Some?
    requires ReadsEachOnce(byScalable, env.getScale, done, events)
    requires ErrorsFlagged(events, hadError)
    ensures ReadsEachOnce(byScalable, env.getScale, done + {x}, events + [GetScale(x, ok)])
    ensures ErrorsFlagged(events + [GetScale(x, ok)], hadError || !ok)
  {
    ReadsEachOnceAppend(byScalable, env.getScale, done, events, x);
    ErrorsFlaggedAppend(events, hadError, GetScale(x, ok));
  }

  /** The first pass: every scalable's scale is read once; the scalables whose
      scale could not be read leave their service's set and are not scaled
      down, and each failure is an error. */
  method CollectScales(byScalable: map<NamespacedCrossGroupObjectReference, NamespacedName>,
                       byService0: map<NamespacedName, IdleUpdateInfo>, env: Env)
    returns (byService: map<NamespacedName, IdleUpdateInfo>,
             replicas: map<NamespacedCrossGroupObjectReference, Int32>,
             toScale: map<NamespacedCrossGroupObjectReference, string>,
             events: seq<Event>, hadError: bool)
    ensures ServicesAfterReads(byScalable, byService0, env, byScalable.Keys, byService)
    ensures ScalesRead(byScalable, env, byScalable.Keys, replicas, toScale)
    ensures ReadsEachOnce(byScalable, env.getScale, byScalable.Keys, events)
    ensures ErrorsFlagged(events, hadError)
  {
    byService, replicas, toScale, events, hadError := byService0, map[], map[], [], false;
    var left := byScalable.Keys;
    ghost var done: set<NamespacedCrossGroupObjectReference> := {};
    while left != {}
      invariant left <= byScalable.Keys && done == byScalable.Keys - left
      invariant ServicesAfterReads(byScalable, byService0, env, done, byService)
      invariant ScalesRead(byScalable, env, done, replicas, toScale)
      invariant ReadsEachOnce(byScalable, env.getScale, done, events)
      invariant ErrorsFlagged(events, hadError)
      decreases left
    {
      var x :| x in left;
      var ok;
      byService, replicas, toScale, ok := CollectScale(byScalable, byService0, env, done, x, byService, replicas, toScale);
      ReadEventStep(byScalable, env, done, x, events, hadError, ok);
      events, hadError := events + [GetScale(x, ok)], hadError || !ok;
      left := left - {x};
      done := done + {x};
    }
  }

  // ---------------------------------------------------------------------------
  // Second pass: annotate the endpoints objects (idle.go:615-689).

  /** The unidle-targets annotation of a service's endpoints object, read back. */
  function StoredOf(info: IdleUpdateInfo, env: Env): StoredTargets {
    StoredTargetsOf(info.obj.annotations, env.decode)
  }

  /** The targets a service recorded before; none when it has no annotation. */
  function PriorOf(info: IdleUpdateInfo, env: Env): seq<RecordedScaleReference> {
    var stored := StoredOf(info, env);
    if stored.Parsed? then stored.targets else []
  }

  /** The merged annotation of service `name` when its merge sees `scales`. */
  function MergedFor(info: IdleUpdateInfo, name: NamespacedName, env: Env,
                     scales: map<NamespacedCrossGroupObjectReference, Int32>): map<CrossGroupObjectReference, Int32>
  {
    MergedReplicas(name.namespace, PriorOf(info, env), info.scaleRefs, scales)
  }

  /** The list written for a service names each of its remaining references,
      each target once, and none with 0 replicas. */
  predicate WellFormedTargets(targets: seq<RecordedScaleReference>, scaleRefs: set<CrossGroupObjectReference>) {
    UniqueKeys(targets) && scaleRefs <= KeySet(targets) && forall i :: 0 <= i < |targets| ==> targets[i].replicas != 0
  }

  /** A merged list is well formed for the references found now. */
  lemma MergedTargetsWellFormed(namespace: string, prior: seq<RecordedScaleReference>, current: set<CrossGroupObjectReference>,
                                scales: map<NamespacedCrossGroupObjectReference, Int32>, targets: seq<RecordedScaleReference>)
    requires Lists(targets, MergedReplicas(namespace, prior, current, scales))
    ensures WellFormedTargets(targets, current)
  {
    var m := MergedReplicas(namespace, prior, current, scales);
    forall i | 0 <= i < |targets| ensures targets[i].replicas != 0 {
      assert targets[i].ref in m;
    }
  }

  predicate HasService(e: Event) {
    e.MergeRejected? || e.NothingToIdle? || e.Patch? || e.Marked?
  }

  /** The services a sequence of events is about. */
  function Services(events: seq<Event>): set<NamespacedName> {
    set e | e in events && HasService(e) :: e.service
  }

  /** A patch is sent only outside a dry run, for a service whose annotation
      could be read and which has references left. It carries the merged list
      for the scales that service's merge saw (`scalesAt`), and the
      annotations setIdleAnnotations makes of that list. */
  predicate PatchFits(byService: map<NamespacedName, IdleUpdateInfo>, dryRun: bool, env: Env,
                      scalesAt: map<NamespacedName, map<NamespacedCrossGroupObjectReference, Int32>>, e: Event)
    requires e.Patch? && e.service in byService
  {
    var info := byService[e.service];
    && !dryRun && info.scaleRefs != {} && !StoredOf(info, env).Corrupt?
    && e.service in scalesAt && Lists(e.targets, MergedFor(info, e.service, env, scalesAt[e.service]))
    && e.annotations == SetIdleAnnotations(info.obj.annotations, e.targets, env.nowTime, env.encode)
    && e.ok == env.patch(e.service, e.annotations)
  }

  /** A service is reported as idled: in a dry run with the merged list, and
      outside one only right after a successful patch of that list. */
  predicate MarkFits(byService: map<NamespacedName, IdleUpdateInfo>, dryRun: bool, env: Env,
                     scalesAt: map<NamespacedName, map<NamespacedCrossGroupObjectReference, Int32>>,
                     events: seq<Event>, i: nat)
    requires i < |events| && events[i].Marked? && events[i].service in byService
  {
    var e := events[i];
    var info := byService[e.service];
    if dryRun then
      !StoredOf(info, env).Corrupt? && e.service in scalesAt &&
      Lists(e.targets, MergedFor(info, e.service, env, scalesAt[e.service]))
    else
      0 < i && events[i - 1].Patch? && events[i - 1].service == e.service &&
      events[i - 1].targets == e.targets && events[i - 1].ok
  }

  /** The events of the second pass for the services in `done`: each event is
      about one of them, each of them has events, one service's events are a
      single event or a patch directly followed by its mark, and every event
      is what the source does for that service: a rejected merge exactly for
      a corrupt annotation, NothingToIdle for a readable one with no
      references left, a patch or a mark of the merged list. */
  ghost predicate AnnotationEvents(byService: map<NamespacedName, IdleUpdateInfo>, dryRun: bool, env: Env,
                                   scalesAt: map<NamespacedName, map<NamespacedCrossGroupObjectReference, Int32>>,
                                   done: set<NamespacedName>, events: seq<Event>)
  {
    && (forall i :: 0 <= i < |events| ==> HasService(events[i]) && events[i].service in done && events[i].service in byService)
    && Services(events) == done
    && (forall i :: 0 <= i < |events| && events[i].MergeRejected? ==>
          StoredOf(byService[events[i].service], env).Corrupt?)
    && (forall i :: 0 <= i < |events| && events[i].NothingToIdle? ==>
          !dryRun && !StoredOf(byService[events[i].service], env).Corrupt? && byService[events[i].service].scaleRefs == {})
    && (forall i :: 0 <= i < |events| && events[i].Patch? ==> PatchFits(byService, dryRun, env, scalesAt, events[i]))
    && (forall i :: 0 <= i < |events| && events[i].Marked? ==> MarkFits(byService, dryRun, env, scalesAt, events, i))
    && (forall i :: 0 <= i < |events| && events[i].Patch? && events[i].ok ==>
          i + 1 < |events| && events[i + 1] == Marked(events[i].service, events[i].targets))
    && (forall i, j :: 0 <= i < j < |events| && events[i].service == events[j].service ==>
          j == i + 1 && events[i].Patch? && events[j].Marked?)
  }

  lemma ServicesConcat(a: seq<Event>, b: seq<Event>)
    ensures Services(a + b) == Services(a) + Services(b)
  {
  }

  lemma AnnotationEventsConcat(byService: map<NamespacedName, IdleUpdateInfo>, dryRun: bool, env: Env,
                               scalesAt: map<NamespacedName, map<NamespacedCrossGroupObjectReference, Int32>>,
                               d1: set<NamespacedName>, e1: seq<Event>, d2: set<NamespacedName>, e2: seq<Event>)
    requires AnnotationEvents(byService, dryRun, env, scalesAt, d1, e1)
    requires AnnotationEvents(byService, dryRun, env, scalesAt, d2, e2)
    requires d1 !! d2
    ensures AnnotationEvents(byService, dryRun, env, scalesAt, d1 + d2, e1 + e2)
  {
    var all := e1 + e2;
    ServicesConcat(e1, e2);
    forall i | 0 <= i < |all| && all[i].Marked? ensures MarkFits(byService, dryRun, env, scalesAt, all, i) {
      if i < |e1| {
        assert MarkFits(byService, dryRun, env, scalesAt, e1, i);
        if !dryRun {
          assert all[i - 1] == e1[i - 1];
        }
      } else {
        assert MarkFits(byService, dryRun, env, scalesAt, e2, i - |e1|);
        if !dryRun {
          assert all[i - 1] == e2[i - 1 - |e1|];
        }
      }
    }
    forall i, j | 0 <= i < j < |all| && all[i].service == all[j].service
      ensures j == i + 1 && all[i].Patch? && all[j].Marked?
    {
      if i < |e1| && j < |e1| {
        assert all[i] == e1[i] && all[j] == e1[j];
      } else if |e1| <= i {
        assert all[i] == e2[i - |e1|] && all[j] == e2[j - |e1|];
      }
    }
  }

  /** The events of services already annotated keep fitting when the scales
      of a further service are recorded. */
  lemma AnnotationEventsFrame(byService: map<NamespacedName, IdleUpdateInfo>, dryRun: bool, env: Env,
                              scalesAt: map<NamespacedName, map<NamespacedCrossGroupObjectReference, Int32>>,
                              done: set<NamespacedName>, events: seq<Event>,
                              name: NamespacedName, scales: map<NamespacedCrossGroupObjectReference, Int32>)
    requires AnnotationEvents(byService, dryRun, env, scalesAt, done, events)
    requires name !in done
    ensures AnnotationEvents(byService, dryRun, env, scalesAt[name := scales], done, events)
  {
    var sa := scalesAt[name := scales];
    forall i | 0 <= i < |events| && events[i].Marked? ensures MarkFits(byService, dryRun, env, sa, events, i) {
      assert MarkFits(byService, dryRun, env, scalesAt, events, i);
    }
    forall i | 0 <= i < |events| && events[i].Patch? ensures PatchFits(byService, dryRun, env, sa, events[i]) {
      assert PatchFits(byService, dryRun, env, scalesAt, events[i]);
    }
  }

  /** What the second pass does for one service (idle.go:617-689). The
      recorded list is merged with the references left; a corrupt one skips
      the service without an error. Outside a dry run a service with no
      references left is an error, and otherwise the annotations are set and
      patched; the service is reported as idled in a dry run or after a
      successful patch. The replica counts the merge writes back are kept for
      the services that follow. */
  ghost predicate ServiceOutcome(byService: map<NamespacedName, IdleUpdateInfo>, name: NamespacedName,
                                 scales0: map<NamespacedCrossGroupObjectReference, Int32>, dryRun: bool, env: Env,
                                 refsWithScale: Result<seq<RecordedScaleReference>>,
                                 scales: map<NamespacedCrossGroupObjectReference, Int32>, events: seq<Event>)
    requires name in byService
  {
    var info := byService[name];
    && (refsWithScale.Err? <==> StoredOf(info, env).Corrupt?)
    && (refsWithScale.Err? ==> events == [MergeRejected(name)] && scales == scales0)
    && (refsWithScale.Ok? ==>
          Lists(refsWithScale.value, MergedFor(info, name, env, scales0)) &&
          ScalesAfterMerge(name.namespace, PriorOf(info, env), info.scaleRefs, scales0, scales))
    && (refsWithScale.Ok? && !dryRun && info.scaleRefs == {} ==> events == [NothingToIdle(name)])
    && (refsWithScale.Ok? && dryRun ==> events == [Marked(name, refsWithScale.value)])
    && (refsWithScale.Ok? && !dryRun && info.scaleRefs != {} ==>
          var t := refsWithScale.value;
          var annotations := SetIdleAnnotations(info.obj.annotations, t, env.nowTime, env.encode);
          var ok := env.patch(name, annotations);
          events == [Patch(name, t, annotations, ok)] + if ok then [Marked(name, t)] else [])
  }

  /** The second pass for one service: a merge, then a patch outside a dry run. */
  method AnnotateService(byService: map<NamespacedName, IdleUpdateInfo>, name: NamespacedName,
                         scales0: map<NamespacedCrossGroupObjectReference, Int32>, dryRun: bool, env: Env)
    returns (refsWithScale: Result<seq<RecordedScaleReference>>,
             scales: map<NamespacedCrossGroupObjectReference, Int32>, events: seq<Event>, hadError: bool)
    requires name in byService
    ensures ServiceOutcome(byService, name, scales0, dryRun, env, refsWithScale, scales, events)
    ensures hadError <==> events == [NothingToIdle(name)] || (events != [] && events[0].Patch? && !events[0].ok)
  {
    var info := byService[name];
    refsWithScale, scales := PairScalesWithScaleRefs(name, info.obj.annotations, info.scaleRefs, scales0, env.decode);
    if refsWithScale.Err? {
      return refsWithScale, scales, [MergeRejected(name)], false;
    }
    var t := refsWithScale.value;
    events, hadError := [], false;
    if !dryRun {
      if info.scaleRefs == {} {
        return refsWithScale, scales, [NothingToIdle(name)], true;
      }
      var annotations := SetIdleAnnotations(info.obj.annotations, t, env.nowTime, env.encode);
      var ok := env.patch(name, annotations);
      events := [Patch(name, t, annotations, ok)];
      if !ok {
        return refsWithScale, scales, events, true;
      }
    }
    events := events + [Marked(name, t)];
  }

  lemma OneEventFits(byService: map<NamespacedName, IdleUpdateInfo>, dryRun: bool, env: Env,
                     scalesAt: map<NamespacedName, map<NamespacedCrossGroupObjectReference, Int32>>, events: seq<Event>)
    requires |events| == 1 && HasService(events[0]) && events[0].service in byService
    requires events[0].MergeRejected? ==> StoredOf(byService[events[0].service], env).Corrupt?
    requires events[0].NothingToIdle? ==>
               !dryRun && !StoredOf(byService[events[0].service], env).Corrupt? && byService[events[0].service].scaleRefs == {}
    requires events[0].Patch? ==> PatchFits(byService, dryRun, env, scalesAt, events[0]) && !events[0].ok
    requires events[0].Marked? ==> dryRun && MarkFits(byService, dryRun, env, scalesAt, events, 0)
    ensures AnnotationEvents(byService, dryRun, env, scalesAt, {events[0].service}, events)
  {
    assert events[0] in events;
  }

  lemma PatchThenMarkFits(byService: map<NamespacedName, IdleUpdateInfo>, dryRun: bool, env: Env,
                          scalesAt: map<NamespacedName, map<NamespacedCrossGroupObjectReference, Int32>>, events: seq<Event>)
    requires |events| == 2 && events[0].Patch? && events[0].ok && events[0].service in byService
    requires events[1] == Marked(events[0].service, events[0].targets)
    requires PatchFits(byService, dryRun, env, scalesAt, events[0])
    ensures AnnotationEvents(byService, dryRun, env, scalesAt, {events[0].service}, events)
  {
    var name := events[0].service;
    assert events == [events[0], Marked(name, events[0].targets)];
    assert Services(events) == {name} by {
      assert events[0] in events;
      forall e | e in events ensures e == events[0] || e == events[1] { }
    }
    assert MarkFits(byService, dryRun, env, scalesAt, events, 1);
  }

  /** The events of one service fit the second pass's description, with the
      scales its merge started from. */
  lemma ServiceEventsFit(byService: map<NamespacedName, IdleUpdateInfo>, name: NamespacedName,
                         scales0: map<NamespacedCrossGroupObjectReference, Int32>, dryRun: bool, env: Env,
                         refsWithScale: Result<seq<RecordedScaleReference>>,
                         scales: map<NamespacedCrossGroupObjectReference, Int32>, events: seq<Event>,
                         scalesAt: map<NamespacedName, map<NamespacedCrossGroupObjectReference, Int32>>)
    requires name in byService && name in scalesAt && scalesAt[name] == scales0
    requires ServiceOutcome(byService, name, scales0, dryRun, env, refsWithScale, scales, events)
    ensures AnnotationEvents(byService, dryRun, env, scalesAt, {name}, events)
  {
    var info := byService[name];
    if refsWithScale.Err? {
      OneEventFits(byService, dryRun, env, scalesAt, events);
    } else if dryRun || info.scaleRefs == {} {
      OneEventFits(byService, dryRun, env, scalesAt, events);
    } else {
      var t := refsWithScale.value;
      var annotations := SetIdleAnnotations(info.obj.annotations, t, env.nowTime, env.encode);
      var p := Patch(name, t, annotations, env.patch(name, annotations));
      assert events[0] == p;
      if p.ok {
        PatchThenMarkFits(byService, dryRun, env, scalesAt, events);
      } else {
        OneEventFits(byService, dryRun, env, scalesAt, events);
      }
    }
  }

  /** The second pass sets hadError for a service exactly when one of its
      events is an error. */
  lemma ServiceErrorsFlagged(name: NamespacedName, events: seq<Event>, hadError: bool)
    requires events == [MergeRejected(name)] || events == [NothingToIdle(name)] ||
             (events != [] && events[0].Patch? && (events[0].ok ==> events == [events[0], Marked(name, events[0].targets)]) &&
              (!events[0].ok ==> events == [events[0]])) ||
             (|events| == 1 && events[0].Marked?)
    requires hadError <==> events == [NothingToIdle(name)] || (events != [] && events[0].Patch? && !events[0].ok)
    ensures ErrorsFlagged(events, hadError)
  {
    if hadError {
      assert IsError(events[0]);
    } else {
      forall i | 0 <= i < |events| ensures !IsError(events[i]) {
      }
    }
  }

  /** The scales map before and after one service's merge: unchanged when the
      merge is rejected, otherwise with the recorded counts written back. */
  ghost predicate MergeStep(info: IdleUpdateInfo, name: NamespacedName, env: Env,
                            before: map<NamespacedCrossGroupObjectReference, Int32>,
                            after: map<NamespacedCrossGroupObjectReference, Int32>)
  {
    if StoredOf(info, env).Corrupt? then after == before
    else ScalesAfterMerge(name.namespace, PriorOf(info, env), info.scaleRefs, before, after)
  }

  /** The order the second pass took: `order` lists services once each,
      `hist[k]` is the scales map the k-th service's merge saw, starting from
      the scales read, and `scalesAt` records it by service. */
  ghost predicate MergeOrder(byService: map<NamespacedName, IdleUpdateInfo>, env: Env,
                             scales0: map<NamespacedCrossGroupObjectReference, Int32>, order: seq<NamespacedName>,
                             hist: seq<map<NamespacedCrossGroupObjectReference, Int32>>,
                             scalesAt: map<NamespacedName, map<NamespacedCrossGroupObjectReference, Int32>>)
  {
    && |hist| == |order| + 1 && hist[0] == scales0
    && (forall k, l :: 0 <= k < l < |order| ==> order[k] != order[l])
    && (forall k :: 0 <= k < |order| ==>
          order[k] in byService && order[k] in scalesAt && scalesAt[order[k]] == hist[k] &&
          MergeStep(byService[order[k]], order[k], env, hist[k], hist[k + 1]))
  }

  lemma MergeOrderAppend(byService: map<NamespacedName, IdleUpdateInfo>, env: Env,
                         scales0: map<NamespacedCrossGroupObjectReference, Int32>, order: seq<NamespacedName>,
                         hist: seq<map<NamespacedCrossGroupObjectReference, Int32>>,
                         scalesAt: map<NamespacedName, map<NamespacedCrossGroupObjectReference, Int32>>,
                         name: NamespacedName, scales: map<NamespacedCrossGroupObjectReference, Int32>)
    requires MergeOrder(byService, env, scales0, order, hist, scalesAt)
    requires name in byService && name !in order
    requires MergeStep(byService[name], name, env, hist[|order|], scales)
    ensures MergeOrder(byService, env, scales0, order + [name], hist + [scales], scalesAt[name := hist[|order|]])
  {
    var o, h := order + [name], hist + [scales];
    forall k | 0 <= k < |o| ensures MergeStep(byService[o[k]], o[k], env, h[k], h[k + 1]) {
      if k < |order| {
        assert o[k] == order[k] && h[k] == hist[k] && h[k + 1] == hist[k + 1];
      }
    }
  }

  /** A merge that is not rejected gives the scales map MergeStep describes. */
  lemma OutcomeIsMergeStep(byService: map<NamespacedName, IdleUpdateInfo>, name: NamespacedName,
                           scales0: map<NamespacedCrossGroupObjectReference, Int32>, dryRun: bool, env: Env,
                           refsWithScale: Result<seq<RecordedScaleReference>>,
                           scales: map<NamespacedCrossGroupObjectReference, Int32>, events: seq<Event>)
    requires name in byService
    requires ServiceOutcome(byService, name, scales0, dryRun, env, refsWithScale, scales, events)
    ensures MergeStep(byService[name], name, env, scales0, scales)
    ensures events == [MergeRejected(name)] || events == [NothingToIdle(name)] ||
            (events != [] && events[0].Patch? && (events[0].ok ==> events == [events[0], Marked(name, events[0].targets)]) &&
             (!events[0].ok ==> events == [events[0]])) ||
            (|events| == 1 && events[0].Marked?)
  {
  }

  /** One service's outcome extends the second pass's events and its merge order. */
  lemma AnnotateStep(byService: map<NamespacedName, IdleUpdateInfo>, dryRun: bool, env: Env,
                     scales0: map<NamespacedCrossGroupObjectReference, Int32>,
                     left: set<NamespacedName>, events: seq<Event>, order: seq<NamespacedName>,
                     hist: seq<map<NamespacedCrossGroupObjectReference, Int32>>,
                     scalesAt: map<NamespacedName, map<NamespacedCrossGroupObjectReference, Int32>>,
                     name: NamespacedName, scalesBefore: map<NamespacedCrossGroupObjectReference, Int32>,
                     refsWithScale: Result<seq<RecordedScaleReference>>,
                     scales: map<NamespacedCrossGroupObjectReference, Int32>, serviceEvents: seq<Event>,
                     hadError: bool, serviceError: bool)
    requires left <= byService.Keys && name in left
    requires ErrorsFlagged(events, hadError)
    requires serviceError <==>
               serviceEvents == [NothingToIdle(name)] || (serviceEvents != [] && serviceEvents[0].Patch? && !serviceEvents[0].ok)
    requires AnnotationEvents(byService, dryRun, env, scalesAt, byService.Keys - left, events)
    requires MergeOrder(byService, env, scales0, order, hist, scalesAt) && hist[|order|] == scalesBefore
    requires forall s :: s in order <==> s in byService.Keys - left
    requires ServiceOutcome(byService, name, scalesBefore, dryRun, env, refsWithScale, scales, serviceEvents)
    ensures AnnotationEvents(byService, dryRun, env, scalesAt[name := scalesBefore], byService.Keys - (left - {name}),
                             events + serviceEvents)
    ensures MergeOrder(byService, env, scales0, order + [name], hist + [scales], scalesAt[name := scalesBefore])
    ensures forall s :: s in order + [name] <==> s in byService.Keys - (left - {name})
    ensures ErrorsFlagged(events + serviceEvents, hadError || serviceError)
  {
    var done := byService.Keys - left;
    OutcomeIsMergeStep(byService, name, scalesBefore, dryRun, env, refsWithScale, scales, serviceEvents);
    MergeOrderAppend(byService, env, scales0, order, hist, scalesAt, name, scales);
    AnnotationEventsFrame(byService, dryRun, env, scalesAt, done, events, name, scalesBefore);
    var sa := scalesAt[name := scalesBefore];
    ServiceEventsFit(byService, name, scalesBefore, dryRun, env, refsWithScale, scales, serviceEvents, sa);
    AnnotationEventsConcat(byService, dryRun, env, sa, done, events, {name}, serviceEvents);
    assert done + {name} == byService.Keys - (left - {name});
    ServiceErrorsFlagged(name, serviceEvents, serviceError);
    ErrorsFlaggedConcat(events, hadError, serviceEvents, serviceError);
  }

  /** The second pass: every service is annotated once, in some order; the
      scales each merge sees are those read, with what earlier merges wrote
      back (idle.go:454-465 updates the shared map in place). */
  method AnnotateEndpoints(byService: map<NamespacedName, IdleUpdateInfo>,
                           scales0: map<NamespacedCrossGroupObjectReference, Int32>, dryRun: bool, env: Env)
    returns (events: seq<Event>, hadError: bool, ghost order: seq<NamespacedName>,
             ghost hist: seq<map<NamespacedCrossGroupObjectReference, Int32>>,
             ghost scalesAt: map<NamespacedName, map<NamespacedCrossGroupObjectReference, Int32>>)
    ensures AnnotationEvents(byService, dryRun, env, scalesAt, byService.Keys, events)
    ensures MergeOrder(byService, env, scales0, order, hist, scalesAt)
    ensures forall s :: s in order <==> s in byService
    ensures ErrorsFlagged(events, hadError)
  {
    var scales := scales0;
    events, hadError := [], false;
    order, hist, scalesAt := [], [scales0], map[];
    var left := byService.Keys;
    while left != {}
      invariant left <= byService.Keys
      invariant AnnotationEvents(byService, dryRun, env, scalesAt, byService.Keys - left, events)
      invariant MergeOrder(byService, env, scales0, order, hist, scalesAt) && hist[|order|] == scales
      invariant forall s :: s in order <==> s in byService.Keys - left
      invariant ErrorsFlagged(events, hadError)
      decreases left
    {
      var name :| name in left;
      var refsWithScale, serviceEvents, serviceError;
      ghost var scalesBefore := scales;
      refsWithScale, scales, serviceEvents, serviceError := AnnotateService(byService, name, scales, dryRun, env);
      AnnotateStep(byService, dryRun, env, scales0, left, events, order, hist, scalesAt,
                   name, scalesBefore, refsWithScale, scales, serviceEvents, hadError, serviceError);
      events, hadError := events + serviceEvents, hadError || serviceError;
      order, hist, scalesAt := order + [name], hist + [scales], scalesAt[name := scalesBefore];
      left := left - {name};
    }
    assert byService.Keys - left == byService.Keys;
  }

  lemma ErrorsFlaggedConcat(a: seq<Event>, errA: bool, b: seq<Event>, errB: bool)
    requires ErrorsFlagged(a, errA) && ErrorsFlagged(b, errB)
    ensures ErrorsFlagged(a + b, errA || errB)
  {
    var all := a + b;
    if errA {
      var i :| 0 <= i < |a| && IsError(a[i]);
      assert IsError(all[i]);
    }
    if errB {
      var i :| 0 <= i < |b| && IsError(b[i]);
      assert IsError(all[|a| + i]);
    }
    if exists i :: 0 <= i < |all| && IsError(all[i]) {
      var i :| 0 <= i < |all| && IsError(all[i]);
      if i < |a| {
        assert IsError(a[i]);
      } else {
        assert IsError(b[i - |a|]);
      }
    }
  }

  // ---------------------------------------------------------------------------
  // Properties of the second pass.

  /** The services whose endpoints a sequence of events patches. */
  function PatchedServices(events: seq<Event>): set<NamespacedName> {
    set e | e in events && e.Patch? :: e.service
  }

  /** The services a sequence of events patches successfully. */
  function PatchedOkServices(events: seq<Event>): set<NamespacedName> {
    set e | e in events && e.Patch? && e.ok :: e.service
  }

  /** The services a sequence of events reports as idled. */
  function MarkedServices(events: seq<Event>): set<NamespacedName> {
    set e | e in events && e.Marked? :: e.service
  }

  /** The kind of a service's event tells the case the service is in. */
  lemma EventCase(info: IdleUpdateInfo, e: Event, dryRun: bool, corrupt: bool)
    requires HasService(e)
    requires e.MergeRejected? ==> corrupt
    requires e.NothingToIdle? ==> !dryRun && !corrupt && info.scaleRefs == {}
    requires e.Patch? ==> !dryRun && !corrupt && info.scaleRefs != {}
    requires e.Marked? ==> dryRun && !corrupt
    ensures corrupt ==> e.MergeRejected?
    ensures !corrupt && dryRun ==> e.Marked?
    ensures !corrupt && !dryRun && info.scaleRefs == {} ==> e.NothingToIdle?
    ensures !corrupt && !dryRun && info.scaleRefs != {} ==> e.Patch?
  {
  }

  /** An event about service `s`, and which kind it is: it tells the case the
      service is in. */
  lemma ServiceEventKind(byService: map<NamespacedName, IdleUpdateInfo>, dryRun: bool, env: Env,
      scalesAt: map<NamespacedName, map<NamespacedCrossGroupObjectReference, Int32>>,
      done: set<NamespacedName>, events: seq<Event>, s: NamespacedName) returns (i: nat)
    requires AnnotationEvents(byService, dryRun, env, scalesAt, done, events)
    requires s in done
    ensures s in byService && i < |events| && HasService(events[i]) && events[i].service == s
    ensures StoredOf(byService[s], env).Corrupt? ==> events[i].MergeRejected?
    ensures !StoredOf(byService[s], env).Corrupt? && dryRun ==> events[i].Marked?
    ensures !StoredOf(byService[s], env).Corrupt? && !dryRun && byService[s].scaleRefs == {} ==> events[i].NothingToIdle?
    ensures !StoredOf(byService[s], env).Corrupt? && !dryRun && byService[s].scaleRefs != {} ==> events[i].Patch?
  {
    assert s in Services(events);
    var e :| e in events && HasService(e) && e.service == s;
    var k :| 0 <= k < |events| && events[k] == e;
    if e.Marked? {
      assert MarkFits(byService, dryRun, env, scalesAt, events, k);
    }
    i := if e.Marked? && !dryRun then k - 1 else k;
    var f := events[i];
    if f.Patch? {
      assert PatchFits(byService, dryRun, env, scalesAt, f);
    }
    EventCase(byService[s], f, dryRun, StoredOf(byService[s], env).Corrupt?);
  }

  /** A merge is rejected exactly for a corrupt annotation. */
  lemma RejectedOutcome(byService: map<NamespacedName, IdleUpdateInfo>, dryRun: bool, env: Env,
      scalesAt: map<NamespacedName, map<NamespacedCrossGroupObjectReference, Int32>>,
      done: set<NamespacedName>, events: seq<Event>, s: NamespacedName)
    requires AnnotationEvents(byService, dryRun, env, scalesAt, done, events)
    requires s in done
    ensures s in byService
    ensures MergeRejected(s) in events <==> StoredOf(byService[s], env).Corrupt?
  {
    var i := ServiceEventKind(byService, dryRun, env, scalesAt, done, events, s);
    if MergeRejected(s) in events {
      var j :| 0 <= j < |events| && events[j] == MergeRejected(s);
    }
    assert events[i] in events;
  }

  /** NothingToIdle is reported exactly outside a dry run for a readable
      annotation with no references left. */
  lemma NothingToIdleOutcome(byService: map<NamespacedName, IdleUpdateInfo>, dryRun: bool, env: Env,
      scalesAt: map<NamespacedName, map<NamespacedCrossGroupObjectReference, Int32>>,
      done: set<NamespacedName>, events: seq<Event>, s: NamespacedName)
    requires AnnotationEvents(byService, dryRun, env, scalesAt, done, events)
    requires s in done
    ensures s in byService
    ensures NothingToIdle(s) in events <==>
              !dryRun && !StoredOf(byService[s], env).Corrupt? && byService[s].scaleRefs == {}
  {
    var i := ServiceEventKind(byService, dryRun, env, scalesAt, done, events, s);
    if NothingToIdle(s) in events {
      var j :| 0 <= j < |events| && events[j] == NothingToIdle(s);
    }
    assert events[i] in events;
  }

  /** A patch is sent exactly outside a dry run for a readable annotation with
      references left. */
  lemma PatchedOutcome(byService: map<NamespacedName, IdleUpdateInfo>, dryRun: bool, env: Env,
      scalesAt: map<NamespacedName, map<NamespacedCrossGroupObjectReference, Int32>>,
      done: set<NamespacedName>, events: seq<Event>, s: NamespacedName)
    requires AnnotationEvents(byService, dryRun, env, scalesAt, done, events)
    requires s in done
    ensures s in byService
    ensures s in PatchedServices(events) <==>
              !dryRun && !StoredOf(byService[s], env).Corrupt? && byService[s].scaleRefs != {}
  {
    var i := ServiceEventKind(byService, dryRun, env, scalesAt, done, events, s);
    if s in PatchedServices(events) {
      var p :| p in events && p.Patch? && p.service == s;
      var j :| 0 <= j < |events| && events[j] == p;
      assert PatchFits(byService, dryRun, env, scalesAt, p);
    }
    assert events[i] in events;
  }

  /** A service is reported as idled exactly when its annotation is readable
      and it is a dry run or its patch succeeded. */
  lemma MarkedOutcome(byService: map<NamespacedName, IdleUpdateInfo>, dryRun: bool, env: Env,
      scalesAt: map<NamespacedName, map<NamespacedCrossGroupObjectReference, Int32>>,
      done: set<NamespacedName>, events: seq<Event>, s: NamespacedName)
    requires AnnotationEvents(byService, dryRun, env, scalesAt, done, events)
    requires s in done
    ensures s in byService
    ensures s in MarkedServices(events) <==>
              !StoredOf(byService[s], env).Corrupt? && (dryRun || s in PatchedOkServices(events))
  {
    var i := ServiceEventKind(byService, dryRun, env, scalesAt, done, events, s);
    if s in PatchedOkServices(events) {
      var p :| p in events && p.Patch? && p.ok && p.service == s;
      var j :| 0 <= j < |events| && events[j] == p;
      assert events[j + 1] in events;
    }
    if s in MarkedServices(events) {
      var m :| m in events && m.Marked? && m.service == s;
      var j :| 0 <= j < |events| && events[j] == m;
      assert MarkFits(byService, dryRun, env, scalesAt, events, j);
      if !dryRun {
        assert PatchFits(byService, dryRun, env, scalesAt, events[j - 1]);
        assert events[j - 1] in events;
      }
    }
    assert events[i] in events;
  }

  /** Each service annotated gets exactly the outcome the source gives it: a
      rejected merge exactly when its annotation is corrupt; otherwise, in a
      dry run a mark; outside one NothingToIdle when no reference is left, and
      else a patch, followed by a mark exactly when the patch succeeded. */
  lemma AnnotationOutcomes(byService: map<NamespacedName, IdleUpdateInfo>, dryRun: bool, env: Env,
      scalesAt: map<NamespacedName, map<NamespacedCrossGroupObjectReference, Int32>>,
      done: set<NamespacedName>, events: seq<Event>, s: NamespacedName)
    requires AnnotationEvents(byService, dryRun, env, scalesAt, done, events)
    requires s in done
    ensures s in byService
    ensures MergeRejected(s) in events <==> StoredOf(byService[s], env).Corrupt?
    ensures NothingToIdle(s) in events <==>
              !dryRun && !StoredOf(byService[s], env).Corrupt? && byService[s].scaleRefs == {}
    ensures s in PatchedServices(events) <==>
              !dryRun && !StoredOf(byService[s], env).Corrupt? && byService[s].scaleRefs != {}
    ensures s in MarkedServices(events) <==>
              !StoredOf(byService[s], env).Corrupt? && (dryRun || s in PatchedOkServices(events))
  {
    RejectedOutcome(byService, dryRun, env, scalesAt, done, events, s);
    NothingToIdleOutcome(byService, dryRun, env, scalesAt, done, events, s);
    PatchedOutcome(byService, dryRun, env, scalesAt, done, events, s);
    MarkedOutcome(byService, dryRun, env, scalesAt, done, events, s);
  }

  // ---------------------------------------------------------------------------
  // Third pass: scale down (idle.go:691-705).

  /** The events of the third pass for the scalables in `done`: outside a dry
      run each one's scale is set to zero, and it is reported as idled in a
      dry run or once the update succeeded. */
  ghost predicate ScaleDownEvents(toScale: map<NamespacedCrossGroupObjectReference, string>, dryRun: bool, env: Env,
                                  done: set<NamespacedCrossGroupObjectReference>, events: seq<Event>)
  {
    && (forall e :: e in events ==>
          (e.UpdateScale? || e.Idled?) && e.scalable in done && e.scalable in toScale && e.namespace == toScale[e.scalable])
    && (forall e :: e in events && e.UpdateScale? ==> !dryRun && e.ok == env.updateScale(e.namespace, e.scalable.ref))
    && (forall x :: x in done && x in toScale ==>
          (Idled(x, toScale[x]) in events <==> dryRun || env.updateScale(toScale[x], x.ref)))
    && (forall x :: x in done && x in toScale && !dryRun ==>
          UpdateScale(x, toScale[x], env.updateScale(toScale[x], x.ref)) in events)
  }

  /** The third pass for one scalable (idle.go:693-704). */
  method ScaleDownOne(toScale: map<NamespacedCrossGroupObjectReference, string>, x: NamespacedCrossGroupObjectReference,
                      dryRun: bool, env: Env)
    returns (events: seq<Event>, hadError: bool)
    requires x in toScale
    ensures ScaleDownEvents(toScale, dryRun, env, {x}, events)
    ensures hadError <==> !dryRun && !env.updateScale(toScale[x], x.ref)
    ensures ErrorsFlagged(events, hadError)
  {
    var namespace := toScale[x];
    events, hadError := [], false;
    if !dryRun {
      var ok := env.updateScale(namespace, x.ref);
      events := [UpdateScale(x, namespace, ok)];
      if !ok {
        assert IsError(events[0]);
        return events, true;
      }
    }
    events := events + [Idled(x, namespace)];
    assert forall i :: 0 <= i < |events| ==> !IsError(events[i]);
  }

  lemma ScaleDownEventsConcat(toScale: map<NamespacedCrossGroupObjectReference, string>, dryRun: bool, env: Env,
                              d1: set<NamespacedCrossGroupObjectReference>, e1: seq<Event>,
                              d2: set<NamespacedCrossGroupObjectReference>, e2: seq<Event>)
    requires ScaleDownEvents(toScale, dryRun, env, d1, e1)
    requires ScaleDownEvents(toScale, dryRun, env, d2, e2)
    requires d1 !! d2
    ensures ScaleDownEvents(toScale, dryRun, env, d1 + d2, e1 + e2)
  {
    forall x | x in d1 + d2 && x in toScale
      ensures Idled(x, toScale[x]) in e1 + e2 <==> dryRun || env.updateScale(toScale[x], x.ref)
    {
      if x in d1 {
        assert Idled(x, toScale[x]) !in e2;
      } else {
        assert Idled(x, toScale[x]) !in e1;
      }
    }
  }

  /** The third pass: every scalable whose scale was read, once, in some order. */
  method ScaleDown(toScale: map<NamespacedCrossGroupObjectReference, string>, dryRun: bool, env: Env)
    returns (events: seq<Event>, hadError: bool)
    ensures ScaleDownEvents(toScale, dryRun, env, toScale.Keys, events)
    ensures ErrorsFlagged(events, hadError)
  {
    events, hadError := [], false;
    var left := toScale.Keys;
    while left != {}
      invariant left <= toScale.Keys
      invariant ScaleDownEvents(toScale, dryRun, env, toScale.Keys - left, events)
      invariant ErrorsFlagged(events, hadError)
      decreases left
    {
      var x :| x in left;
      var scalableEvents, scalableError := ScaleDownOne(toScale, x, dryRun, env);
      ScaleDownEventsConcat(toScale, dryRun, env, toScale.Keys - left, events, {x}, scalableEvents);
      ErrorsFlaggedConcat(events, hadError, scalableEvents, scalableError);
      events, hadError := events + scalableEvents, hadError || scalableError;
      assert (toScale.Keys - left) + {x} == toScale.Keys - (left - {x});
      left := left - {x};
    }
    assert toScale.Keys - left == toScale.Keys;
  }

  // ---------------------------------------------------------------------------
  // RunIdle (idle.go:537-712).

  datatype Outcome = NoValidTargets(errors: seq<IdleError>) | ErrExit | Done

  /** The scalables a trace read a scale for. */
  function ReadScalables(trace: seq<Event>): set<NamespacedCrossGroupObjectReference> {
    set e | e in trace && e.GetScale? && e.ok :: e.scalable
  }

  /** The scalables a trace tried to scale down. */
  function UpdatedScalables(trace: seq<Event>): set<NamespacedCrossGroupObjectReference> {
    set e | e in trace && e.UpdateScale? :: e.scalable
  }

  /** The scalables a trace reports as idled. */
  function IdledScalables(trace: seq<Event>): set<NamespacedCrossGroupObjectReference> {
    set e | e in trace && e.Idled? :: e.scalable
  }

  lemma ReadScalablesAreScaled(byScalable: map<NamespacedCrossGroupObjectReference, NamespacedName>, env: Env,
                               events: seq<Event>, replicas: map<NamespacedCrossGroupObjectReference, Int32>,
                               toScale: map<NamespacedCrossGroupObjectReference, string>)
    requires ReadsEachOnce(byScalable, env.getScale, byScalable.Keys, events)
    requires ScalesRead(byScalable, env, byScalable.Keys, replicas, toScale)
    ensures ReadScalables(events) == toScale.Keys
  {
    forall x | x in toScale ensures x in ReadScalables(events) {
      assert x in ScaleReads(events);
      var i :| 0 <= i < |events| && events[i].GetScale? && events[i].scalable == x;
      assert events[i] in events;
    }
  }

  lemma ScaledDownSets(toScale: map<NamespacedCrossGroupObjectReference, string>, dryRun: bool, env: Env, events: seq<Event>)
    requires ScaleDownEvents(toScale, dryRun, env, toScale.Keys, events)
    ensures !dryRun ==> UpdatedScalables(events) == toScale.Keys
    ensures dryRun ==> forall e :: e in events ==> e.Idled?
    ensures forall x :: x in IdledScalables(events) <==>
              x in toScale && (dryRun || env.updateScale(toScale[x], x.ref))
  {
    if !dryRun {
      forall x | x in toScale ensures x in UpdatedScalables(events) {
        assert UpdateScale(x, toScale[x], env.updateScale(toScale[x], x.ref)) in events;
      }
    }
    forall x | x in toScale && (dryRun || env.updateScale(toScale[x], x.ref)) ensures x in IdledScalables(events) {
      assert Idled(x, toScale[x]) in events;
    }
  }

  /** The passes run in order: all scale reads, then all annotations, then
      all scale-downs. */
  lemma PassesInOrder(e1: seq<Event>, e2: seq<Event>, e3: seq<Event>)
    requires forall e :: e in e1 ==> e.GetScale?
    requires forall e :: e in e2 ==> HasService(e)
    requires forall e :: e in e3 ==> e.UpdateScale? || e.Idled?
    ensures var trace := e1 + e2 + e3;
            forall i, j :: 0 <= i < |trace| && 0 <= j < |trace| && trace[i].GetScale? && HasService(trace[j]) ==> i < j
    ensures var trace := e1 + e2 + e3;
            forall i, j :: 0 <= i < |trace| && 0 <= j < |trace| && HasService(trace[i]) && trace[j].UpdateScale? ==> i < j
  {
    var trace := e1 + e2 + e3;
    forall i | 0 <= i < |trace|
      ensures trace[i].GetScale? ==> i < |e1|
      ensures HasService(trace[i]) ==> |e1| <= i < |e1| + |e2|
      ensures trace[i].UpdateScale? ==> |e1| + |e2| <= i
    {
      if i < |e1| {
        assert trace[i] == e1[i] && e1[i] in e1;
      } else if i < |e1| + |e2| {
        assert trace[i] == e2[i - |e1|] && e2[i - |e1|] in e2;
      } else {
        assert trace[i] == e3[i - |e1| - |e2|] && e3[i - |e1| - |e2|] in e3;
      }
    }
  }

  /** What the first pass's events say, event by event. */
  lemma ScaleReadsSummary(byScalable: map<NamespacedCrossGroupObjectReference, NamespacedName>, env: Env,
                          events: seq<Event>)
    requires ReadsEachOnce(byScalable, env.getScale, byScalable.Keys, events)
    ensures forall e :: e in events ==> e.GetScale?
  {
  }

  /** What the second pass's events say, event by event, in terms of the
      indexes before the first pass dropped anything. */
  lemma AnnotationSummary(byScalable: map<NamespacedCrossGroupObjectReference, NamespacedName>,
                          byService0: map<NamespacedName, IdleUpdateInfo>, env: Env,
                          byService: map<NamespacedName, IdleUpdateInfo>, dryRun: bool,
                          scalesAt: map<NamespacedName, map<NamespacedCrossGroupObjectReference, Int32>>, events: seq<Event>)
    requires ServicesAfterReads(byScalable, byService0, env, byScalable.Keys, byService)
    requires AnnotationEvents(byService, dryRun, env, scalesAt, byService.Keys, events)
    ensures forall e :: e in events ==> HasService(e)
    ensures dryRun ==> forall e :: e in events ==> !e.Patch? && !e.NothingToIdle?
    ensures forall e :: e in events && e.Patch? ==>
              e.service in byService0 &&
              WellFormedTargets(e.targets,
                                byService0[e.service].scaleRefs - Dropped(byScalable, env.getScale, byScalable.Keys, e.service)) &&
              e.annotations == SetIdleAnnotations(byService0[e.service].obj.annotations, e.targets, env.nowTime, env.encode)
    ensures Services(events) == byService0.Keys
  {
    forall e | e in events
      ensures HasService(e)
      ensures dryRun ==> !e.Patch? && !e.NothingToIdle?
      ensures e.Patch? ==>
                e.service in byService0 &&
                WellFormedTargets(e.targets,
                                  byService0[e.service].scaleRefs - Dropped(byScalable, env.getScale, byScalable.Keys, e.service)) &&
                e.annotations == SetIdleAnnotations(byService0[e.service].obj.annotations, e.targets, env.nowTime, env.encode)
    {
      var i :| 0 <= i < |events| && events[i] == e;
      if e.Patch? {
        assert PatchFits(byService, dryRun, env, scalesAt, events[i]);
        var info := byService[e.service];
        MergedTargetsWellFormed(e.service.namespace, PriorOf(info, env), info.scaleRefs, scalesAt[e.service], e.targets);
      }
    }
  }

  lemma TraceSetsConcat(a: seq<Event>, b: seq<Event>)
    ensures ReadScalables(a + b) == ReadScalables(a) + ReadScalables(b)
    ensures UpdatedScalables(a + b) == UpdatedScalables(a) + UpdatedScalables(b)
    ensures IdledScalables(a + b) == IdledScalables(a) + IdledScalables(b)
  {
  }

  /** The facts of the three passes, composed into facts about the whole run:
      the scalables read, updated and reported as idled. */
  lemma PassesCompose(byScalable: map<NamespacedCrossGroupObjectReference, NamespacedName>, dryRun: bool, env: Env,
                      toScale: map<NamespacedCrossGroupObjectReference, string>, e1: seq<Event>, e2: seq<Event>, e3: seq<Event>)
    requires forall x :: x in toScale ==> x in byScalable && toScale[x] == byScalable[x].namespace
    requires forall e :: e in e1 ==> e.GetScale?
    requires ReadScalables(e1) == toScale.Keys
    requires forall e :: e in e2 ==> HasService(e)
    requires forall e :: e in e3 ==> e.UpdateScale? || e.Idled?
    requires !dryRun ==> UpdatedScalables(e3) == toScale.Keys
    requires forall x :: x in IdledScalables(e3) <==> x in toScale && (dryRun || env.updateScale(toScale[x], x.ref))
    ensures var events := e1 + e2 + e3;
            !dryRun ==> UpdatedScalables(events) == ReadScalables(events)
    ensures var events := e1 + e2 + e3;
            forall x :: x in IdledScalables(events) <==>
              x in ReadScalables(events) && x in byScalable && (dryRun || env.updateScale(byScalable[x].namespace, x.ref))
  {
    TraceSetsConcat(e1, e2);
    TraceSetsConcat(e1 + e2, e3);
    assert ReadScalables(e2) == {} && UpdatedScalables(e2) == {} && IdledScalables(e2) == {};
    assert ReadScalables(e3) == {} && UpdatedScalables(e1) == {} && IdledScalables(e1) == {};
  }

  /** The kinds of event the three passes' traces hold, and the services they
      are about. */
  lemma PassesComposeEvents(dryRun: bool, e1: seq<Event>, e2: seq<Event>, e3: seq<Event>)
    requires forall e :: e in e1 ==> e.GetScale?
    requires forall e :: e in e2 ==> HasService(e)
    requires dryRun ==> forall e :: e in e2 ==> !e.Patch? && !e.NothingToIdle?
    requires forall e :: e in e3 ==> e.UpdateScale? || e.Idled?
    requires dryRun ==> forall e :: e in e3 ==> e.Idled?
    ensures var events := e1 + e2 + e3;
            forall e :: e in events ==> !e.DiscoveryWarning?
    ensures var events := e1 + e2 + e3;
            dryRun ==> forall e :: e in events ==> !e.Patch? && !e.NothingToIdle? && !e.UpdateScale?
    ensures var events := e1 + e2 + e3;
            forall e :: e in events && e.Patch? ==> e in e2
    ensures Services(e1 + e2 + e3) == Services(e2)
  {
    ServicesConcat(e1, e2);
    ServicesConcat(e1 + e2, e3);
    assert Services(e1) == {} && Services(e3) == {};
  }

  /** The services' sets after the first pass: each loses the references
      whose scale could not be read (idle.go:605-608). */
  function AfterReads(byScalable: map<NamespacedCrossGroupObjectReference, NamespacedName>, byService0: map<NamespacedName, IdleUpdateInfo>,
                      getScale: (string, CrossGroupObjectReference) -> Option<Int32>): map<NamespacedName, IdleUpdateInfo>
  {
    map s | s in byService0 ::
      IdleUpdateInfo(byService0[s].obj, byService0[s].scaleRefs - Dropped(byScalable, getScale, byScalable.Keys, s))
  }

  /** The replica counts the first pass read (idle.go:611). */
  function ReadReplicas(byScalable: map<NamespacedCrossGroupObjectReference, NamespacedName>,
                        getScale: (string, CrossGroupObjectReference) -> Option<Int32>): map<NamespacedCrossGroupObjectReference, Int32>
  {
    map x | x in byScalable && getScale(byScalable[x].namespace, x.ref).Some? :: getScale(byScalable[x].namespace, x.ref).value
  }

  /** The scalables the third pass scales down, with their namespaces (idle.go:612). */
  function ToScale(byScalable: map<NamespacedCrossGroupObjectReference, NamespacedName>,
                   getScale: (string, CrossGroupObjectReference) -> Option<Int32>): map<NamespacedCrossGroupObjectReference, string>
  {
    map x | x in byScalable && getScale(byScalable[x].namespace, x.ref).Some? :: byScalable[x].namespace
  }

  lemma FirstPassResults(byScalable: map<NamespacedCrossGroupObjectReference, NamespacedName>, byService0: map<NamespacedName, IdleUpdateInfo>, env: Env,
                         byService: map<NamespacedName, IdleUpdateInfo>, replicas: map<NamespacedCrossGroupObjectReference, Int32>, toScale: map<NamespacedCrossGroupObjectReference, string>)
    requires ServicesAfterReads(byScalable, byService0, env, byScalable.Keys, byService)
    requires ScalesRead(byScalable, env, byScalable.Keys, replicas, toScale)
    ensures byService == AfterReads(byScalable, byService0, env.getScale)
    ensures replicas == ReadReplicas(byScalable, env.getScale)
    ensures toScale == ToScale(byScalable, env.getScale)
  {
  }

  /** The three passes of one run: the events of each, the order the second
      pass visited the services in, and the scales each service's merge saw. */
  datatype Passes = Passes(readPass: seq<Event>, annotatePass: seq<Event>, downPass: seq<Event>,
                           order: seq<NamespacedName>, hist: seq<map<NamespacedCrossGroupObjectReference, Int32>>,
                           scalesAt: map<NamespacedName, map<NamespacedCrossGroupObjectReference, Int32>>)

  /** The events of the three passes, in the order they run. */
  function Trace(p: Passes): seq<Event> {
    p.readPass + p.annotatePass + p.downPass
  }

  /** What the three passes do (idle.go:598-705): every scalable's scale is
      read once; every service is annotated once, with its merge seeing the
      scales read plus what earlier merges wrote back; every scalable whose
      scale was read is scaled down. */
  ghost predicate PassesFit(byService0: map<NamespacedName, IdleUpdateInfo>, byScalable: map<NamespacedCrossGroupObjectReference, NamespacedName>,
                            dryRun: bool, env: Env, p: Passes)
  {
    var byService := AfterReads(byScalable, byService0, env.getScale);
    var toScale := ToScale(byScalable, env.getScale);
    && ReadsEachOnce(byScalable, env.getScale, byScalable.Keys, p.readPass)
    && AnnotationEvents(byService, dryRun, env, p.scalesAt, byService.Keys, p.annotatePass)
    && MergeOrder(byService, env, ReadReplicas(byScalable, env.getScale), p.order, p.hist, p.scalesAt)
    && (forall s :: s in p.order <==> s in byService)
    && ScaleDownEvents(toScale, dryRun, env, toScale.Keys, p.downPass)
  }

  /** Over a whole run, each discovered service gets the outcome the source
      gives it, judged by its annotation and by the references left once the
      scale reads that failed are dropped. */
  lemma PassOutcomes(byService0: map<NamespacedName, IdleUpdateInfo>, byScalable: map<NamespacedCrossGroupObjectReference, NamespacedName>,
                     dryRun: bool, env: Env, p: Passes, s: NamespacedName)
    requires PassesFit(byService0, byScalable, dryRun, env, p)
    requires s in byService0
    ensures var corrupt := StoredOf(byService0[s], env).Corrupt?;
            var left := byService0[s].scaleRefs - Dropped(byScalable, env.getScale, byScalable.Keys, s);
            && (MergeRejected(s) in p.annotatePass <==> corrupt)
            && (NothingToIdle(s) in p.annotatePass <==> !dryRun && !corrupt && left == {})
            && (s in PatchedServices(p.annotatePass) <==> !dryRun && !corrupt && left != {})
            && (s in MarkedServices(p.annotatePass) <==> !corrupt && (dryRun || s in PatchedOkServices(p.annotatePass)))
  {
    var byService := AfterReads(byScalable, byService0, env.getScale);
    assert StoredOf(byService[s], env) == StoredOf(byService0[s], env);
    AnnotationOutcomes(byService, dryRun, env, p.scalesAt, byService.Keys, p.annotatePass, s);
  }

  /** What the whole trace of the passes shows: hadError is set exactly when
      some event is an error; a dry run patches and updates nothing; every
      scale is read before any endpoints object is annotated, and every
      annotation is sent before any scale is set to zero; every scalable whose
      scale was read is updated outside a dry run, and reported as idled in a
      dry run or once its update succeeded; every patch carries a well-formed
      list for the service's references left and the annotations made of it;
      and every service has events. */
  ghost predicate TraceFacts(byService0: map<NamespacedName, IdleUpdateInfo>, byScalable: map<NamespacedCrossGroupObjectReference, NamespacedName>,
                             dryRun: bool, env: Env, trace: seq<Event>, hadError: bool)
  {
    && ErrorsFlagged(trace, hadError)
    && (dryRun ==> forall e :: e in trace ==> !e.Patch? && !e.NothingToIdle? && !e.UpdateScale?)
    && (forall i, j :: 0 <= i < |trace| && 0 <= j < |trace| && trace[i].GetScale? && HasService(trace[j]) ==> i < j)
    && (forall i, j :: 0 <= i < |trace| && 0 <= j < |trace| && HasService(trace[i]) && trace[j].UpdateScale? ==> i < j)
    && (!dryRun ==> UpdatedScalables(trace) == ReadScalables(trace))
    && (forall x :: x in IdledScalables(trace) <==>
          x in ReadScalables(trace) && x in byScalable && (dryRun || env.updateScale(byScalable[x].namespace, x.ref)))
    && (forall e :: e in trace && e.Patch? ==>
          e.service in byService0 &&
          WellFormedTargets(e.targets,
                            byService0[e.service].scaleRefs - Dropped(byScalable, env.getScale, byScalable.Keys, e.service)) &&
          e.annotations == SetIdleAnnotations(byService0[e.service].obj.annotations, e.targets, env.nowTime, env.encode))
    && Services(trace) == byService0.Keys
  }

  /** The facts of the three passes' events, composed into the facts of the
      whole trace. */
  lemma PassesTraceFacts(byService0: map<NamespacedName, IdleUpdateInfo>, byScalable: map<NamespacedCrossGroupObjectReference, NamespacedName>,
                         dryRun: bool, env: Env, byService: map<NamespacedName, IdleUpdateInfo>,
                         replicas: map<NamespacedCrossGroupObjectReference, Int32>, toScale: map<NamespacedCrossGroupObjectReference, string>,
                         scalesAt: map<NamespacedName, map<NamespacedCrossGroupObjectReference, Int32>>,
                         e1: seq<Event>, err1: bool, e2: seq<Event>, err2: bool, e3: seq<Event>, err3: bool)
    requires ServicesAfterReads(byScalable, byService0, env, byScalable.Keys, byService)
    requires ScalesRead(byScalable, env, byScalable.Keys, replicas, toScale)
    requires ReadsEachOnce(byScalable, env.getScale, byScalable.Keys, e1) && ErrorsFlagged(e1, err1)
    requires AnnotationEvents(byService, dryRun, env, scalesAt, byService.Keys, e2) && ErrorsFlagged(e2, err2)
    requires ScaleDownEvents(toScale, dryRun, env, toScale.Keys, e3) && ErrorsFlagged(e3, err3)
    ensures TraceFacts(byService0, byScalable, dryRun, env, e1 + e2 + e3, err1 || err2 || err3)
    ensures forall e :: e in e1 + e2 + e3 ==> !e.DiscoveryWarning?
  {
    ReadScalablesAreScaled(byScalable, env, e1, replicas, toScale);
    ScaleReadsSummary(byScalable, env, e1);
    AnnotationSummary(byScalable, byService0, env, byService, dryRun, scalesAt, e2);
    ScaledDownSets(toScale, dryRun, env, e3);
    PassesInOrder(e1, e2, e3);
    PassesCompose(byScalable, dryRun, env, toScale, e1, e2, e3);
    PassesComposeEvents(dryRun, e1, e2, e3);
    ErrorsFlaggedConcat(e1, err1, e2, err2);
    ErrorsFlaggedConcat(e1 + e2, err1 || err2, e3, err3);
  }

  /** The three passes over the discovered indexes (idle.go:598-712). Every
      scale is read before any endpoints object is annotated, and every
      annotation is sent before any scale is set to zero. Every scalable whose
      scale was read is scaled down, whether or not its service's patch
      succeeded; nothing is written in a dry run. */
  method RunPasses(byService0: map<NamespacedName, IdleUpdateInfo>,
                   byScalable: map<NamespacedCrossGroupObjectReference, NamespacedName>, dryRun: bool, env: Env)
    returns (events: seq<Event>, hadError: bool, ghost p: Passes)
    ensures events == Trace(p) && PassesFit(byService0, byScalable, dryRun, env, p)
    ensures TraceFacts(byService0, byScalable, dryRun, env, events, hadError)
    ensures forall e :: e in events ==> !e.DiscoveryWarning?
  {
    var byService, replicas, toScale, scaleEvents, scaleError := CollectScales(byScalable, byService0, env);
    var annotateEvents, annotateError, order, hist, scalesAt := AnnotateEndpoints(byService, replicas, dryRun, env);
    var downEvents, downError := ScaleDown(toScale, dryRun, env);
    events := scaleEvents + annotateEvents + downEvents;
    hadError := scaleError || annotateError || downError;
    p := Passes(scaleEvents, annotateEvents, downEvents, order, hist, scalesAt);
    FirstPassResults(byScalable, byService0, env, byService, replicas, toScale);
    PassesTraceFacts(byService0, byScalable, dryRun, env, byService, replicas, toScale, scalesAt,
                     scaleEvents, scaleError, annotateEvents, annotateError, downEvents, downError);
  }

  /** A warning in front keeps the passes in order. */
  lemma WarningKeepsOrder(w: seq<Event>, events: seq<Event>)
    requires forall e :: e in w ==> e.DiscoveryWarning?
    requires forall i, j :: 0 <= i < |events| && 0 <= j < |events| && events[i].GetScale? && HasService(events[j]) ==> i < j
    requires forall i, j :: 0 <= i < |events| && 0 <= j < |events| && HasService(events[i]) && events[j].UpdateScale? ==> i < j
    ensures var trace := w + events;
            forall i, j :: 0 <= i < |trace| && 0 <= j < |trace| && trace[i].GetScale? && HasService(trace[j]) ==> i < j
    ensures var trace := w + events;
            forall i, j :: 0 <= i < |trace| && 0 <= j < |trace| && HasService(trace[i]) && trace[j].UpdateScale? ==> i < j
  {
    var trace := w + events;
    forall i | 0 <= i < |w| ensures trace[i].DiscoveryWarning? {
      assert trace[i] == w[i] && w[i] in w;
    }
    forall i | |w| <= i < |trace| ensures trace[i] == events[i - |w|] {
    }
  }

  /** The warning the discovery's errors become (idle.go:575-580). */
  function Warning(errs: seq<IdleError>): seq<Event> {
    if errs == [] then [] else [DiscoveryWarning(errs)]
  }

  /** The facts RunPasses states about its events hold of them with the
      warning in front. */
  lemma WarnedRunFacts(byService: map<NamespacedName, IdleUpdateInfo>,
                       byScalable: map<NamespacedCrossGroupObjectReference, NamespacedName>, dryRun: bool, env: Env,
                       errs: seq<IdleError>, events: seq<Event>, hadError: bool)
    requires TraceFacts(byService, byScalable, dryRun, env, events, hadError)
    ensures TraceFacts(byService, byScalable, dryRun, env, Warning(errs) + events, hadError)
  {
    var warning := Warning(errs);
    WarningKeepsOrder(warning, events);
    TraceSetsConcat(warning, events);
    ServicesConcat(warning, events);
    ErrorsFlaggedConcat(warning, false, events, hadError);
    assert ReadScalables(warning) == {} && UpdatedScalables(warning) == {} && IdledScalables(warning) == {};
    assert Services(warning) == {};
  }

  /** RunIdle once the discovery produced targets (idle.go:574-712): the
      discovery's errors, if any, become a warning in front of the passes,
      and the exit status is an error exactly when some pass failed. */
  method WarnAndRun(byService: map<NamespacedName, IdleUpdateInfo>,
                    byScalable: map<NamespacedCrossGroupObjectReference, NamespacedName>,
                    errs: seq<IdleError>, dryRun: bool, env: Env)
    returns (outcome: Outcome, trace: seq<Event>, ghost p: Passes)
    ensures trace == Warning(errs) + Trace(p)
    ensures PassesFit(byService, byScalable, dryRun, env, p)
    ensures !outcome.NoValidTargets?
    ensures TraceFacts(byService, byScalable, dryRun, env, trace, outcome.ErrExit?)
  {
    var events, hadError;
    events, hadError, p := RunPasses(byService, byScalable, dryRun, env);
    trace := Warning(errs) + events;
    outcome := if hadError then ErrExit else Done;
    WarnedRunFacts(byService, byScalable, dryRun, env, errs, events, hadError);
  }

  /** RunIdle from the discovery on (idle.go:537-712), over the objects the
      resource builder visits. `errors` are the discovery's errors, one per
      object that did not resolve. They end the run only when either index is
      empty; otherwise they are a warning and do not set the exit status. */
  method RunIdle(cl: Cluster, infos: seq<VisitedInfo>, dryRun: bool, env: Env)
    returns (outcome: Outcome, trace: seq<Event>, ghost errors: seq<IdleError>, ghost origin: seq<nat>, ghost p: Passes)
    ensures ReportsEachFailure(cl, infos, |infos|, errors, origin)
    ensures |errors| + |Claims(cl, infos)| == |infos|
    ensures var claims := Claims(cl, infos);
            outcome.NoValidTargets? <==>
              |claims| < |infos| && (ForwardIndex(claims) == map[] || ReverseIndex(claims) == map[])
    ensures outcome.NoValidTargets? ==> trace == [] && outcome.errors == errors
    ensures !outcome.NoValidTargets? ==>
              var claims := Claims(cl, infos);
              && trace == Warning(errors) + Trace(p)
              && PassesFit(ForwardIndex(claims), ReverseIndex(claims), dryRun, env, p)
              && TraceFacts(ForwardIndex(claims), ReverseIndex(claims), dryRun, env, trace, outcome.ErrExit?)
  {
    var byService, byScalable, errs, lookups;
    byService, byScalable, errs, lookups, origin := CalculateIdlableAnnotationsByService(cl, infos);
    errors := errs;
    if errs != [] && (byService == map[] || byScalable == map[]) {
      p := Passes([], [], [], [], [], map[]);
      return NoValidTargets(errs), [], errors, origin, p;
    }
    outcome, trace, p := WarnAndRun(byService, byScalable, errs, dryRun, env);
  }
}
