# Idling and config defaulting, modelled in Dafny

This project models two parts of the OpenShift `origin` repository and proves properties of them.

**`oc idle` (pkg/oc/cli/idle/idle.go).** The command takes a list of endpoints objects, one per service. It works out which scalable resources serve each service: replication controllers, deployment configs, deployments and the like. It then does three things:
- it records those resources, with their replica counts, in the endpoints object's `unidle-targets` annotation;
- it stamps the object with an `idled-at` time;
- it scales the resources down to zero.

The model covers every part of that run:
- **Discovery.** This is in `idle_discovery.dfy`. It follows each endpoints object to its pods, then to the pods' controllers, then to those controllers' creators. The pod and controller lookups are memoised, and the model keeps the memo maps.
- **The annotation merge.** This is in `idle_merge.dfy`. It combines the references found now with those recorded by an earlier idling, and settles the replica count each reference is to come back with.
- **`RunIdle` as a trace of events.** This is in `idle_run.dfy`. The three passes (read scales, annotate endpoints, scale down) run over Go maps in an unspecified order. The model states their results up to that order.

**Config defaulting and conversion (pkg/cmd/server/apis/config/v1/conversions.go).** This covers the master and node configuration files.
- **The `SetDefaults_*` functions.** These are in `config_defaults.dfy`. Each one fills the empty fields of a config struct that it receives through a pointer. The model keeps the pointer as a `Ptr` cell. Each defaulting method is proved equal to a function on the old value. Lemmas prove that only empty fields are written, that the result is settled, and that defaulting twice is defaulting once.
- **The hand-written conversion functions.** These are in `config_conversions.dfy`. Among them, the API-level whitelist of a `KubernetesMasterConfig` becomes a blacklist of disabled versions.

Shared option types are in `wrappers.dfy`. The value types are in `idle_types.dfy` and `config_types.dfy`.

**Behaviours of the code worth noting, which the model follows:**
- A resource that the command found now, and whose scale it read as a live non-zero count, takes that count over the one recorded earlier. A recorded count of 0 is brought back as 1 (idle.go:473-488).
- The scale-down pass runs over every scalable whose scale was read. It does not depend on whether the patch of that scalable's endpoints object succeeded (idle.go:691-705).
- A corrupt `unidle-targets` annotation skips the service, but it does not make the command exit with an error (idle.go:620-624).
- Discovery errors end the run only when either index is empty. Otherwise they are a warning, and they do not by themselves set the exit status (idle.go:575-580).

## Model

| member | source | states |
|---|---|---|
| IdleTypes.ControllerOf | pkg/oc/cli/idle/idle.go:384 | the controller reference is the first owner reference flagged as controller; there is none exactly when no reference is flagged |
| IdleTypes.NormalizedNSOwnerRef | pkg/oc/cli/idle/idle.go:347-357 | the key keeps the namespace and the reference's identity, and clears both pointer flags |
| IdleTypes.NormalizedKeysEqual | pkg/oc/cli/idle/idle.go:345-357 | two normalised keys are equal exactly when their namespace, API version, kind, name and uid agree, whatever the flags |
| IdleTypes.MakeCrossGroupObjRef | pkg/oc/cli/idle/idle.go:317-328 | fails exactly when the API version does not parse; otherwise it keeps the kind and name and takes the parsed group |
| IdleTypes.ImmediateControllerAsWritten | pkg/oc/cli/idle/idle.go:384-389 | as written: normalising before the nil check panics exactly for a pod with no controller reference |
| IdleTypes.ImmediateController | pkg/oc/cli/idle/idle.go:384-389 | corrected: never panics; it fails with "no creator reference" exactly when the pod has no controller, and otherwise yields the normalised controller key |
| IdleTypes.ImmediateControllerDiscrepancy | pkg/oc/cli/idle/idle.go:384-389 | the two versions differ exactly on pods without a controller reference |
| IdleTypes.OrphanPodPanicsAsWritten | pkg/oc/cli/idle/idle.go:384-388 | a pod whose only owner is not flagged as controller panics as written, and gets the error when corrected |
| IdleTypes.NatDecimalRoundTrip | pkg/oc/cli/idle/idle.go:595 | the decimal digits of a count parse back to that count |
| IdleTypes.FormatIntRoundTrip | pkg/oc/cli/idle/idle.go:595 | the previous-scale annotation ("%v" of an int32) reads back as the replica count it recorded, negative ones included |
| IdleTypes.FormatInt | pkg/oc/cli/idle/idle.go:595 | the text is non-empty and starts with a minus sign exactly for negative counts |
| IdleTypes.ControllerIdleAnnotations | pkg/oc/cli/idle/idle.go:593-596 | the annotater callback adds exactly idled-at (the time) and previous-scale (which reads back as the count), and keeps every other annotation |
| IdleDiscovery.Resolver.constructor | pkg/oc/cli/idle/idle.go:216-232 | the memo maps and the helper cache start empty, and no lookup has been made |
| IdleDiscovery.Resolver.GetPod | pkg/oc/cli/idle/idle.go:217-229 | answers what the server answers; the server is asked only when the pod is not memoised; only a found pod is memoised |
| IdleDiscovery.Resolver.GetController | pkg/oc/cli/idle/idle.go:233-273 | answers the controller lookup (a parse or REST-mapping failure is an error); a memoised controller is answered with no call; otherwise the REST mapping is asked for only when its group-kind is not cached and cached when it succeeds, the controller is fetched only after a mapping, and memoised when found; the pod memo is unchanged |
| IdleDiscovery.Resolver.LoadAddressPod | pkg/oc/cli/idle/idle.go:368-376 | one address adds its pod to podRefs when found; NotFound is tolerated; any other error is returned for that pod |
| IdleDiscovery.Resolver.LoadAddressPods | pkg/oc/cli/idle/idle.go:367-378 | the address loop loads exactly the found pods among the addresses' pod references, or returns the error of one that failed |
| IdleDiscovery.Resolver.LoadPods | pkg/oc/cli/idle/idle.go:365-379 | podRefs is exactly the found pods targeted by any address of any subset; it fails exactly when a targeted pod's lookup fails with other than NotFound |
| IdleDiscovery.Resolver.LoadCreators | pkg/oc/cli/idle/idle.go:393-419 | the result is exactly the creators of the found controllers; it fails exactly when a load or a creator's group parse fails, with an error that names that controller |
| IdleDiscovery.Resolver.FindScalableResourcesForEndpoints | pkg/oc/cli/idle/idle.go:363-422 | succeeds exactly when the three phases do, and then returns the scalable resources of the endpoints; an error is explained by one phase; it fetches only the targeted pods |
| IdleDiscovery.ImmediateControllerRefs | pkg/oc/cli/idle/idle.go:382-390 | the set of normalised controller keys of the loaded pods, or the error for a pod with no controller |
| IdleDiscovery.AddressTargetsMembers | pkg/oc/cli/idle/idle.go:367-368 | a reference is a target exactly when it has kind "Pod" and some address names it |
| IdleDiscovery.SubsetTargetsMembers | pkg/oc/cli/idle/idle.go:366-368 | the same across every address of every subset |
| IdleDiscovery.SubsetTargetsArePods | pkg/oc/cli/idle/idle.go:368 | only pods are ever looked up |
| IdleDiscovery.ScalableRef | pkg/oc/cli/idle/idle.go:400-417 | a controller's creator is its own controller reference if it has one, else the controller itself; it is in the controller's namespace; a parse failure gives none |
| IdleDiscovery.ScalableResourcesTraceBack | pkg/oc/cli/idle/idle.go:363-422 | every resource found traces back to a targeted, found pod whose controller was found and whose creator it is |
| IdleDiscovery.ScalableResourcesComplete | pkg/oc/cli/idle/idle.go:363-422 | conversely, the creator of every found controller of every found pod is in the result |
| IdleDiscovery.CreatorsNoLarger | pkg/oc/cli/idle/idle.go:393-419 | there are no more creators than immediate controllers |
| IdleDiscovery.ScalableResourcesDedup | pkg/oc/cli/idle/idle.go:382-419 | the result has at most as many entries as there are distinct immediate controllers |
| IdleDiscovery.PodPhaseFailsUnion | pkg/oc/cli/idle/idle.go:366-372 | the pod phase fails on a union of targets exactly when it fails on either part |
| IdleDiscovery.LoadedPodsAdd | pkg/oc/cli/idle/idle.go:374-376 | one more target adds its pod to podRefs exactly when the pod is found |
| IdleDiscovery.CreatorsAdd | pkg/oc/cli/idle/idle.go:394-418 | one more controller adds its creator exactly when it is found and its creator parses |
| IdleDiscovery.Project | pkg/oc/cli/idle/idle.go:297-301 | the namespace-free set holds exactly the references of the namespaced ones |
| IdleDiscovery.RecordScaleRefs | pkg/oc/cli/idle/idle.go:297-302 | each found reference now maps to this endpoints object, and the projected set is built alongside |
| IdleDiscovery.VisitInfo | pkg/oc/cli/idle/idle.go:278-312 | the callback succeeds exactly when the object is an endpoints object whose resources resolve; a visit error passes through, a non-endpoints object is refused, and a discovery failure is wrapped as "unable to calculate scalable resources" for that service around the cause; it fetches only pods |
| IdleDiscovery.RecordClaim | pkg/oc/cli/idle/idle.go:296-309 | the forward index maps the name to its object and projected references, and the reverse index maps each reference to the name |
| IdleDiscovery.IndexesAppend | pkg/oc/cli/idle/idle.go:299-309 | recording one more claim updates both indexes as the visitor does |
| IdleDiscovery.ReportsStep | pkg/oc/cli/idle/idle.go:278-295 | one more visited object adds its error, at its own index, exactly when it fails to resolve |
| IdleDiscovery.RecordVisit | pkg/oc/cli/idle/idle.go:292-309 | one visited object's outcome extends the indexes by its claim, or the errors by its error, keeping one error per failing object in visiting order |
| IdleDiscovery.CalculateIdlableAnnotationsByService | pkg/oc/cli/idle/idle.go:215-315 | the two maps are the indexes of the claims that resolved; the errors are one per failing object, in visiting order, each explained by that object (`origin` names it); no pod is fetched twice; only pods are fetched |
| IdleDiscovery.ReverseIndexLastClaim | pkg/oc/cli/idle/idle.go:299-302 | last writer wins: a reference maps to the last endpoints object that claimed it |
| IdleDiscovery.ReverseIndexDomain | pkg/oc/cli/idle/idle.go:299-302 | the reverse index holds exactly the references some endpoints object claimed |
| IdleDiscovery.ForwardIndexLastClaim | pkg/oc/cli/idle/idle.go:304-309 | an endpoints name maps to the last visit of that name |
| IdleDiscovery.ReverseTargetsAreIndexed | pkg/oc/cli/idle/idle.go:296-309 | every service named by the reverse index is in the forward index |
| IdleMerge.StoredTargetsOf | pkg/oc/cli/idle/idle.go:429-447 | a missing annotation means no prior targets; one that does not decode is corrupt; otherwise it holds the decoded list |
| IdleMerge.IndexByKey | pkg/oc/cli/idle/idle.go:444-451 | oldTargetsSet has exactly the recorded references as keys, each mapping to an entry for it |
| IdleMerge.IndexByKeyIsLast | pkg/oc/cli/idle/idle.go:449-451 | a reference recorded twice is indexed by its last entry |
| IdleMerge.IndexTargets | pkg/oc/cli/idle/idle.go:449-451 | the loop builds that index |
| IdleMerge.CurrentEntries | pkg/oc/cli/idle/idle.go:431-439 | the initial list has each current reference exactly once, with count 0 |
| IdleMerge.Replicas | pkg/oc/cli/idle/idle.go:479-485 | the settled count is never 0 |
| IdleMerge.IntendedReplicas | pkg/oc/cli/idle/idle.go:424-427 | the count the merge promises is never 0 |
| IdleMerge.MergedReplicas | pkg/oc/cli/idle/idle.go:428-491 | the merged map covers exactly the current and the recorded references, none with 0 replicas |
| IdleMerge.SettledIsIntended | pkg/oc/cli/idle/idle.go:453-488 | after the write-backs to the shared scales map, settling an entry yields the promised count |
| IdleMerge.RecoverStep | pkg/oc/cli/idle/idle.go:454-465 | merging one more current reference writes back at most its own recorded scale, and only when no live scale was read |
| IdleMerge.RecoverScales | pkg/oc/cli/idle/idle.go:454-465 | the loop removes the current references from oldTargetsSet and leaves the scales map as the merge describes |
| IdleMerge.AppendRecordedOnly | pkg/oc/cli/idle/idle.go:467-470 | appends, once each, the last recorded entry of every reference not found now, and keeps the list's prefix |
| IdleMerge.SettleReplicas | pkg/oc/cli/idle/idle.go:473-488 | every entry keeps its reference and gets the live scale, else its recorded count, else 1 |
| IdleMerge.PairScalesWithScaleRefs | pkg/oc/cli/idle/idle.go:428-491 | fails exactly on a corrupt annotation, leaving the scales alone; otherwise the list holds the merged map's entries once each, current references first |
| IdleMerge.EntriesBeforeSettling | pkg/oc/cli/idle/idle.go:431-470 | before settling, each entry is the current reference or the last recorded entry, with current references first |
| IdleMerge.MergedListed | pkg/oc/cli/idle/idle.go:431-491 | the settled list lists exactly the merged map |
| IdleMerge.MergeRules | pkg/oc/cli/idle/idle.go:424-427 | a live scale wins, then a non-zero recorded count, then 1 |
| IdleMerge.ListedReadsBack | pkg/oc/cli/idle/idle.go:449-451 | a listed reference indexes back to the count the merged map gives it |
| IdleMerge.MergeIdempotent | pkg/oc/cli/idle/idle.go:428-491 | merging the merged list again, with no new references and no conflicting scales, changes no count |
| IdleMerge.SetIdleAnnotations | pkg/oc/cli/idle/idle.go:494-505 | sets exactly the unidle-targets (the encoded list) and idled-at annotations, and keeps every other annotation |
| IdleMerge.ReidleReproducesCounts | pkg/oc/cli/idle/idle.go:428-505 | re-idling an idled service, whose scales now read 0, reads back the list written and restores the same counts |
| IdleMerge.ReidleScenario | pkg/oc/cli/idle/idle.go:454-488 | a deployment config idled at 3 replicas is re-idled at 3, not at 1 |
| IdleRun.NonEmptyLinesMembers | pkg/oc/cli/idle/idle.go:179-186 | a line is kept exactly when it is in the input and is not empty |
| IdleRun.NonEmptyLinesIdempotent | pkg/oc/cli/idle/idle.go:179-186 | filtering twice keeps what filtering once kept |
| IdleRun.ScanLines | pkg/oc/cli/idle/idle.go:175-186 | the scanning loop keeps exactly the non-empty lines, in order |
| IdleRun.ScanLinesFromFile | pkg/oc/cli/idle/idle.go:160-191 | "-" reads standard input; an empty name, a failed scan of standard input or an unreadable file is an error naming which; otherwise the non-empty lines |
| IdleRun.DroppedStep | pkg/oc/cli/idle/idle.go:604-609 | reading one more scalable drops it from its service exactly when its scale read fails |
| IdleRun.ReadsEachOnceAppend | pkg/oc/cli/idle/idle.go:602-613 | one more read extends the first pass's trace by one event for that scalable |
| IdleRun.ReadEventStep | pkg/oc/cli/idle/idle.go:603-612 | one more read extends the trace by its event and sets hadError exactly when the read failed |
| IdleRun.CollectScale | pkg/oc/cli/idle/idle.go:603-612 | a read failure drops the scalable from its service; a success records its replicas and queues it for scale-down |
| IdleRun.CollectScales | pkg/oc/cli/idle/idle.go:601-613 | each scalable's scale is read once; the services, scales and queue are as the reads decide; hadError iff some read failed |
| IdleRun.MergedTargetsWellFormed | pkg/oc/cli/idle/idle.go:620 | a merged list is non-repeating and lists every reference found now |
| IdleRun.AnnotateService | pkg/oc/cli/idle/idle.go:617-688 | merge, then (outside a dry run) refuse an empty service or patch it with the idle annotations; hadError iff nothing to idle or the patch failed |
| IdleRun.ServiceErrorsFlagged | pkg/oc/cli/idle/idle.go:620-681 | a merge rejection sets no error; a refusal or failed patch does |
| IdleRun.MergeOrderAppend | pkg/oc/cli/idle/idle.go:616-620 | one more merge extends the order, the scales each merge saw, and the write-backs |
| IdleRun.OutcomeIsMergeStep | pkg/oc/cli/idle/idle.go:617-688 | a service's merge leaves the scales unchanged when rejected and writes back its recorded counts otherwise; its events are one of the four shapes |
| IdleRun.AnnotateStep | pkg/oc/cli/idle/idle.go:616-689 | annotating one more service extends the events, the merge order and the error flag as the pass's description says |
| IdleRun.AnnotateEndpoints | pkg/oc/cli/idle/idle.go:615-689 | every service is handled once, in some order; each gets its outcome (rejected exactly when corrupt; NothingToIdle, a patch of the merged list for the scales its merge saw, a mark); each merge sees the scales read plus what earlier merges wrote back; hadError iff some event is an error |
| IdleRun.ServiceEventKind | pkg/oc/cli/idle/idle.go:617-688 | every annotated service has an event that tells its case: rejected when corrupt, marked in a dry run, otherwise NothingToIdle with no references left and a patch with some |
| IdleRun.RejectedOutcome | pkg/oc/cli/idle/idle.go:620-624 | a merge is rejected exactly for a corrupt annotation |
| IdleRun.NothingToIdleOutcome | pkg/oc/cli/idle/idle.go:626-633 | NothingToIdle is reported exactly outside a dry run for a readable annotation with no references left |
| IdleRun.PatchedOutcome | pkg/oc/cli/idle/idle.go:626-681 | a patch is sent exactly outside a dry run for a readable annotation with references left |
| IdleRun.MarkedOutcome | pkg/oc/cli/idle/idle.go:626-688 | a service is reported as idled exactly when its annotation is readable and it is a dry run or its patch succeeded |
| IdleRun.AnnotationOutcomes | pkg/oc/cli/idle/idle.go:617-688 | the four outcomes together: rejection iff corrupt; NothingToIdle, patch and mark as the annotation, the dry-run flag and the references left decide |
| IdleRun.ScaleDownOne | pkg/oc/cli/idle/idle.go:693-704 | outside a dry run the scale is set to 0, and a failure is an error and skips the idled report |
| IdleRun.ScaleDownEventsConcat | pkg/oc/cli/idle/idle.go:693-705 | the third pass's description composes over disjoint batches |
| IdleRun.ScaleDown | pkg/oc/cli/idle/idle.go:691-705 | every queued scalable is handled once, in some order; hadError iff some update failed |
| IdleRun.ReadScalablesAreScaled | pkg/oc/cli/idle/idle.go:602-613 | the scalables whose scale was read are exactly the queue for scale-down |
| IdleRun.ScaledDownSets | pkg/oc/cli/idle/idle.go:693-705 | outside a dry run every queued scalable is updated; a dry run only reports; one is reported idled exactly when queued and (in a dry run or its update succeeded) |
| IdleRun.PassesInOrder | pkg/oc/cli/idle/idle.go:598-705 | every scale read precedes every service event, which precedes every scale update |
| IdleRun.ScaleReadsSummary | pkg/oc/cli/idle/idle.go:602-613 | the first pass only reads scales |
| IdleRun.AnnotationSummary | pkg/oc/cli/idle/idle.go:615-689 | each patch writes the idle annotations over the service's own, with a list that covers the references still targeted; a dry run patches nothing; every service appears |
| IdleRun.PassesCompose | pkg/oc/cli/idle/idle.go:598-705 | outside a dry run the scalables updated are those read; one is reported idled exactly when read and (in a dry run or its update succeeded) |
| IdleRun.PassesComposeEvents | pkg/oc/cli/idle/idle.go:598-705 | the passes' trace has no warning, a dry run neither patches nor updates, every patch is the second pass's, and the services are the second pass's |
| IdleRun.FirstPassResults | pkg/oc/cli/idle/idle.go:601-613 | the first pass's results are the services with failed reads dropped, the replica counts read, and the scalables read |
| IdleRun.PassOutcomes | pkg/oc/cli/idle/idle.go:598-689 | over a whole run, each discovered service is rejected exactly when corrupt, and otherwise gets NothingToIdle, a patch or a mark as the dry-run flag and the references left after failed reads decide |
| IdleRun.PassesTraceFacts | pkg/oc/cli/idle/idle.go:598-712 | the three passes' facts compose into the facts of the whole trace |
| IdleRun.RunPasses | pkg/oc/cli/idle/idle.go:598-712 | each scalable's scale is read once; each service gets its outcome, a patch or mark carrying the merged list for the scales its merge saw (the reads plus earlier write-backs); every scalable read is scaled down; the passes run in order; a dry run writes nothing; hadError iff some event is an error |
| IdleRun.WarnAndRun | pkg/oc/cli/idle/idle.go:574-712 | the trace is the discovery warning (present exactly when there were errors) followed by the three passes as RunPasses describes them; ErrExit iff some event is an error |
| IdleRun.RunIdle | pkg/oc/cli/idle/idle.go:537-712 | "no valid scalable resources" exactly when discovery failed somewhere and either index is empty, with no events and one error per failing object, in visiting order, each explained by it; otherwise the warning and the three passes over the discovered indexes, as RunPasses describes them |
| ConfigDefaults.SetDefaultsClientConnectionOverrides | pkg/cmd/server/apis/config/v1/conversions.go:421-430 | the new value is the defaults function of the old |
| ConfigDefaults.ClientConnectionOverridesDefaultsSpec | pkg/cmd/server/apis/config/v1/conversions.go:421-430 | only the empty content types become JSON; the result is settled; exactly settled values are unchanged; idempotent |
| ConfigDefaults.IngressCIDROverlaps | pkg/cmd/server/apis/config/v1/conversions.go:89-99 | the search (service network first, then cluster networks, stopping at the first hit) finds an overlap exactly when one exists |
| ConfigDefaults.DefaultPluginConfigs | pkg/cmd/server/apis/config/v1/conversions.go:113-118 | the loop, in any key order, yields the plugin defaults |
| ConfigDefaults.PluginConfigDefaultsSpec | pkg/cmd/server/apis/config/v1/conversions.go:113-118 | same plugin names; no nil stanza remains; set stanzas are kept; nil ones become empty configs |
| ConfigDefaults.DefaultWebhookCacheTTLs | pkg/cmd/server/apis/config/v1/conversions.go:120-125 | the loop yields the webhook defaults |
| ConfigDefaults.WebhookDefaultsSpec | pkg/cmd/server/apis/config/v1/conversions.go:120-125 | same authenticators and config files; every TTL is set, and set ones are kept |
| ConfigDefaults.SetDefaultsMasterConfig | pkg/cmd/server/apis/config/v1/conversions.go:17-126 | the new value is the master defaults of the old, section by section |
| ConfigDefaults.DefaultMasterControllers | pkg/cmd/server/apis/config/v1/conversions.go:18-36 | API levels, controllers and election section |
| ConfigDefaults.DefaultMasterServing | pkg/cmd/server/apis/config/v1/conversions.go:38-59 | serving limits, subdomain and Jenkins section |
| ConfigDefaults.DefaultMasterLoopback | pkg/cmd/server/apis/config/v1/conversions.go:61-71 | loopback overrides section |
| ConfigDefaults.DefaultMasterNetwork | pkg/cmd/server/apis/config/v1/conversions.go:73-103 | network section |
| ConfigDefaults.DefaultMasterStanzas | pkg/cmd/server/apis/config/v1/conversions.go:105-125 | master CA, plugin and webhook section |
| ConfigDefaults.MasterConfigDefaultsIdempotent | pkg/cmd/server/apis/config/v1/conversions.go:17-126 | defaulting a master config twice is defaulting it once |
| ConfigDefaults.MasterControllersRule | pkg/cmd/server/apis/config/v1/conversions.go:21-28 | a non-empty list is kept; an empty one becomes ["*"] for an empty or "all" switch, [] for "disabled", and stays otherwise |
| ConfigDefaults.MasterElectionRule | pkg/cmd/server/apis/config/v1/conversions.go:29-36 | the election stanza is neither created nor removed; its namespace is filled; its resource becomes configmaps exactly when group and resource were both empty |
| ConfigDefaults.MasterScalarDefaults | pkg/cmd/server/apis/config/v1/conversions.go:18-59 | API levels, timeouts, subdomain and Jenkins fields fill only when empty; timeouts, subdomain, Jenkins names and auto-provisioning end up set, and the API levels end up non-empty exactly when they were or the default levels are |
| ConfigDefaults.MasterLoopbackRule | pkg/cmd/server/apis/config/v1/conversions.go:61-71 | the loopback overrides exist afterwards with positive QPS and burst and both content types; positive values and settled overrides are kept |
| ConfigDefaults.MasterNetworkRule | pkg/cmd/server/apis/config/v1/conversions.go:73-103 | service network: kept, else the services subnet, else 10.0.0.0/24; the ingress network changes exactly when it was empty, no cloud provider is named and the default overlaps no network, and then holds the default |
| ConfigDefaults.MasterCARule | pkg/cmd/server/apis/config/v1/conversions.go:105-111 | a present OAuth config always gets a master CA, copied from the serving client CA when missing; an absent one stays absent |
| ConfigDefaults.SetDefaultsKubernetesMasterConfig | pkg/cmd/server/apis/config/v1/conversions.go:128-141 | the new value is the defaults function of the old |
| ConfigDefaults.KubernetesMasterConfigDefaultsSpec | pkg/cmd/server/apis/config/v1/conversions.go:128-141 | only empty fields change; settled with non-empty default levels; settled configs unchanged; idempotent |
| ConfigDefaults.SetDefaultsNodeConfig | pkg/cmd/server/apis/config/v1/conversions.go:142-182 | the new value is the node defaults of the old |
| ConfigDefaults.DefaultNodeNetworkAndAuth | pkg/cmd/server/apis/config/v1/conversions.go:152-181 | every node field but the overrides takes its default |
| ConfigDefaults.NodeConfigDefaultsSpec | pkg/cmd/server/apis/config/v1/conversions.go:142-182 | nil overrides get 10 QPS and burst 20; the plugin name migrates from the deprecated field; only empty fields change; exactly settled configs are unchanged; idempotent |
| ConfigDefaults.SetDefaultsEtcdStorageConfig | pkg/cmd/server/apis/config/v1/conversions.go:183-196 | the new value is the defaults function of the old |
| ConfigDefaults.EtcdStorageConfigDefaultsSpec | pkg/cmd/server/apis/config/v1/conversions.go:183-196 | only empty fields change; settled when the default storage version is non-empty; settled values unchanged; idempotent |
| ConfigDefaults.SetDefaultsDockerConfig | pkg/cmd/server/apis/config/v1/conversions.go:198-208 | the new value is the defaults function of the old |
| ConfigDefaults.DockerConfigDefaultsSpec | pkg/cmd/server/apis/config/v1/conversions.go:198-208 | only empty fields change; settled when the default exec handler is non-empty; settled values unchanged; idempotent |
| ConfigDefaults.SetDefaultsServingInfo | pkg/cmd/server/apis/config/v1/conversions.go:210-214 | the new value is the defaults function of the old |
| ConfigDefaults.ServingInfoDefaultsSpec | pkg/cmd/server/apis/config/v1/conversions.go:210-214 | only an empty bind network becomes tcp4; idempotent |
| ConfigDefaults.SetDefaultsImagePolicyConfig | pkg/cmd/server/apis/config/v1/conversions.go:215-225 | the new value is the defaults function of the old |
| ConfigDefaults.ImagePolicyConfigDefaultsSpec | pkg/cmd/server/apis/config/v1/conversions.go:215-225 | only zero limits change; settled; settled values unchanged; idempotent |
| ConfigDefaults.SetDefaultsDNSConfig | pkg/cmd/server/apis/config/v1/conversions.go:226-230 | the new value is the defaults function of the old |
| ConfigDefaults.DNSConfigDefaultsSpec | pkg/cmd/server/apis/config/v1/conversions.go:226-230 | only an empty bind network becomes tcp4; idempotent |
| ConfigDefaults.SetDefaultsSecurityAllocator | pkg/cmd/server/apis/config/v1/conversions.go:231-241 | the new value is the defaults function of the old |
| ConfigDefaults.SecurityAllocatorDefaultsSpec | pkg/cmd/server/apis/config/v1/conversions.go:231-241 | only empty fields change; settled when the default exec handler is non-empty; settled values unchanged; idempotent |
| ConfigDefaults.SetDefaultsIdentityProvider | pkg/cmd/server/apis/config/v1/conversions.go:242-249 | the new value is the defaults function of the old |
| ConfigDefaults.IdentityProviderDefaultsSpec | pkg/cmd/server/apis/config/v1/conversions.go:242-249 | only an empty mapping method becomes claim; idempotent |
| ConfigDefaults.SetDefaultsGrantConfig | pkg/cmd/server/apis/config/v1/conversions.go:250-254 | the new value is the defaults function of the old |
| ConfigDefaults.GrantConfigDefaultsSpec | pkg/cmd/server/apis/config/v1/conversions.go:250-254 | only an empty service-account method becomes prompt; the grant method is kept; idempotent |
| ConfigConversions.BlacklistMembers | pkg/cmd/server/apis/config/v1/conversions.go:283-289 | a level is blacklisted exactly when it is available and not whitelisted |
| ConfigConversions.BlacklistEmpty | pkg/cmd/server/apis/config/v1/conversions.go:283-291 | the blacklist is empty exactly when every available level is whitelisted |
| ConfigConversions.BlacklistConcat | pkg/cmd/server/apis/config/v1/conversions.go:285-289 | the blacklist keeps the available order |
| ConfigConversions.BlacklistedLevels | pkg/cmd/server/apis/config/v1/conversions.go:283-289 | the loop yields the blacklist |
| ConfigConversions.ConvertKubernetesMasterConfig | pkg/cmd/server/apis/config/v1/conversions.go:267-297 | a DefaultConvert error passes through; otherwise only the disabled-versions map changes, as the whitelist rule says |
| ConfigConversions.DisabledVersions | pkg/cmd/server/apis/config/v1/conversions.go:273-294 | the closure's disabled-versions map as a function of the API levels; its properties are DisabledVersionsRule's |
| ConfigConversions.DisabledVersionsRule | pkg/cmd/server/apis/config/v1/conversions.go:272-294 | other groups are untouched; no levels disable "*"; otherwise the kube entry lists exactly the available levels not whitelisted, and the map is unchanged when there are none |
| ConfigConversions.ServingInfoToInternal | pkg/cmd/server/apis/config/v1/conversions.go:302-309 | the v1-to-internal closure over DefaultConvert's outcome; its properties are ServingInfoCertRoundTrip's |
| ConfigConversions.ServingInfoFromInternal | pkg/cmd/server/apis/config/v1/conversions.go:310-317 | the internal-to-v1 closure over DefaultConvert's outcome; its properties are ServingInfoCertRoundTrip's |
| ConfigConversions.ServingInfoCertRoundTrip | pkg/cmd/server/apis/config/v1/conversions.go:302-317 | fails exactly when DefaultConvert does; only the certificate changes; it survives v1→internal→v1 and internal→v1→internal |
| ConfigConversions.RemoteConnectionInfoToInternal | pkg/cmd/server/apis/config/v1/conversions.go:318-324 | every field of the internal value is set from the v1 one, the certificate files into clientCert; inverse of the reverse direction by RemoteConnectionInfoRoundTrip |
| ConfigConversions.RemoteConnectionInfoFromInternal | pkg/cmd/server/apis/config/v1/conversions.go:325-331 | every field of the v1 value is set from the internal one; inverse of the forward direction by RemoteConnectionInfoRoundTrip |
| ConfigConversions.RemoteConnectionInfoRoundTrip | pkg/cmd/server/apis/config/v1/conversions.go:318-331 | the two directions are mutual inverses |
| ConfigConversions.EtcdConnectionInfoToInternal | pkg/cmd/server/apis/config/v1/conversions.go:332-338 | every field of the internal value is set from the v1 one, the certificate files into clientCert; inverse of the reverse direction by EtcdConnectionInfoRoundTrip |
| ConfigConversions.EtcdConnectionInfoFromInternal | pkg/cmd/server/apis/config/v1/conversions.go:339-345 | every field of the v1 value is set from the internal one; inverse of the forward direction by EtcdConnectionInfoRoundTrip |
| ConfigConversions.EtcdConnectionInfoRoundTrip | pkg/cmd/server/apis/config/v1/conversions.go:332-345 | the two directions are mutual inverses |
| ConfigConversions.KubeletConnectionInfoToInternal | pkg/cmd/server/apis/config/v1/conversions.go:346-352 | every field of the internal value is set from the v1 one, the certificate files into clientCert; inverse of the reverse direction by KubeletConnectionInfoRoundTrip |
| ConfigConversions.KubeletConnectionInfoFromInternal | pkg/cmd/server/apis/config/v1/conversions.go:353-359 | every field of the v1 value is set from the internal one; inverse of the forward direction by KubeletConnectionInfoRoundTrip |
| ConfigConversions.KubeletConnectionInfoRoundTrip | pkg/cmd/server/apis/config/v1/conversions.go:346-359 | the two directions are mutual inverses |
| ConfigConversions.MasterVolumeConfigToInternal | pkg/cmd/server/apis/config/v1/conversions.go:360-363 | a nil pointer means enabled; its properties are MasterVolumeConfigRoundTrip's |
| ConfigConversions.MasterVolumeConfigFromInternal | pkg/cmd/server/apis/config/v1/conversions.go:364-368 | the flag always becomes a set pointer; its properties are MasterVolumeConfigRoundTrip's |
| ConfigConversions.MasterVolumeConfigRoundTrip | pkg/cmd/server/apis/config/v1/conversions.go:360-368 | disabled exactly by an explicit false; internal→v1→internal is the identity; v1→internal→v1 is the identity exactly when the pointer was set, and nil becomes true |
| ConfigConversions.MasterNetworkConfigToInternal | pkg/cmd/server/apis/config/v1/conversions.go:369-387 | the closure over DefaultConvert's outcome, with the cluster-network and port fallbacks; its properties are MasterNetworkFallbacks' |
| ConfigConversions.MasterNetworkFallbacks | pkg/cmd/server/apis/config/v1/conversions.go:369-387 | there is always a cluster network and a port; an empty list becomes the deprecated single entry; a zero port becomes 4789; nothing else changes; idempotent |
| ConfigConversions.AuditConfigToInternal | pkg/cmd/server/apis/config/v1/conversions.go:388-396 | the v1-to-internal closure over DefaultConvert's outcome; its properties are AuditFilePathRule's |
| ConfigConversions.AuditConfigFromInternal | pkg/cmd/server/apis/config/v1/conversions.go:397-402 | the internal-to-v1 closure is DefaultConvert's outcome alone; AuditFilePathRule states it |
| ConfigConversions.AuditFilePathRule | pkg/cmd/server/apis/config/v1/conversions.go:388-402 | a set v1 audit path becomes the internal path; nothing else changes; the reverse adds nothing to DefaultConvert |

Proof helpers for `RunPasses` and `RunIdle`, which model no source lines by themselves and so have no row: `IdleRun.AnnotationEventsConcat`, `IdleRun.AnnotationEventsFrame`, `IdleRun.OneEventFits`, `IdleRun.PatchThenMarkFits`, `IdleRun.ServiceEventsFit`, `IdleRun.WarningKeepsOrder`, `IdleRun.WarnedRunFacts`. They compose the second pass's description over batches of services, fit single service outcomes to it, and keep the trace facts with the discovery warning in front.

## Findings

| source | as written | input that shows it | evidently intended | confidence | as-written member | corrected member |
|---|---|---|---|---|---|---|
| pkg/oc/cli/idle/idle.go:384-388 | `normalizedNSOwnerRef` dereferences the controller reference before the nil check on the next line | a pod in the endpoints whose owner references carry no controller flag (for example one owner with `controller: false`) | return the "no creator reference listed" error for that pod | high; not executed | IdleTypes.ImmediateControllerAsWritten (shown by IdleTypes.OrphanPodPanicsAsWritten) | IdleTypes.ImmediateController |

## Left out

- Command-line plumbing is not modelled: option parsing, flag validation and `Complete` (idle.go:83-157), and the resource builder (idle.go:538-562). `RunIdle` starts from the sequence of objects the builder visits.
- Reading the file or standard input is a parameter of `ScanLinesFromFile`: `None` stands for an open or scanner error on a file and for a scanner error on standard input (idle.go:167-173, 187-189); the Go error value itself is not kept.
- The construction of the API clients and the scale annotater is not modelled (idle.go:582-596), nor the errors that construction can return.
- The seven reported failure points of the patch are collapsed into one `patch` oracle: accessor, object kinds, REST mapping, version conversion, marshalling, `setIdleAnnotations`' marshalling and `patchObj` (idle.go:635-681). The eighth, the error of `ClientForMappingFn` at idle.go:670, is overwritten before it is checked, so it never fails the patch and is not modelled, and neither is the strategic merge patch of `patchObj` (idle.go:508-535).
- The server, the clock and the codecs are parameters:
  - pod get
  - REST mapping
  - controller get
  - group parsing
  - scale get and update
  - JSON encode and decode
  - RFC 3339 time
- The printed messages are replaced by the events of the trace.
- Go map iteration order is an arbitrary choice (`:|`). Results are stated up to that order.
- IdleTypes.ControllerIdleAnnotations: the annotater callback is modelled on its own and is not called by the scale-down pass. `UpdateObjectScale`, which calls it, is outside the model (it lives in the unidling utilities), and the pass's `UpdateScale` event does not record the 0 written or the previous count.
- Reflection-based `DefaultConvert` and scheme registration are not modelled (`addDefaultingFuncs`, `addConversionFuncs`, conversions.go:13-15, 256-260). The outcome of `DefaultConvert` is a parameter of each closure.
- The NodeConfig closures in both directions (conversions.go:261-266) and the internal-to-v1 KubernetesMasterConfig closure (conversions.go:298-301) are `DefaultConvert` alone. The internal-to-v1 direction drops `APILevels`, so no KubernetesMasterConfig round trip is claimed.
- The RawExtension converters and `DecodeNestedObjects`/`EncodeNestedObjects` are not modelled (conversions.go:410-419, 432-514). They only call foreign decoders and encoders.
- The constants and `CIDRsOverlap` of the internal package are a `Constants` parameter. That package and the v1 type declarations are not part of this model.
- ClientConnectionOverrides' float32 `QPS` is a real. NaN and rounding are not modelled.
- Nested pointers in configs are held by value, so aliasing between two configs that share a pointee is not modelled.
- Nil and empty slices and maps are not distinguished. For example, `[]string{}` and nil controllers are the same, and so are a nil `DisabledAPIGroupVersions` and an empty one.
- The config structs carry only the fields that the defaulting and conversion code reads or writes.
