# Verified model of the Tempo operator's protocols

The Tempo operator keeps Grafana Tempo running on Kubernetes. This project models the parts of it whose correctness
depends on more than one function at a time, and proves in Dafny what they guarantee over whole runs.

- **Certificate rotation** (`Certificates`, `Rotation`, `CertBuild`, `CertHandlers`, `CertSafety`, `CertBounds`,
  `CertTrust`, `CertPolling`, `CertHosts`). A signing CA, a bundle of trusted CAs and a map of target certificates,
  rebuilt by passes of which any part may fail to be stored, while time goes by. Time is an integer number of
  nanoseconds; one pass reads the clock once.
- **Reconciliation** (`Mutate`, `Reconcile`, `ReconcileSafety`, `Retrying`, `Convergence`). Desired objects applied to
  an API server that may turn down any call, immutable fields, pruning by identity, and convergence.
- **Finalizer** (`Labels`, `Finalizer`). Users, workers and the API server as one machine with failing calls, restarts
  and interleaving writes.
- **Upgrade** (`SemVer`, `Upgrade`, `UpgradeSteps`, `UpgradeRuns`). Version order, the step table, two separate
  patches, and runs in which the status is written after every attempt.
- **Status** (`Status`, `Conditions`, `Monolithic`). Two condition protocols and the metric gauges.
- **Network policies** (`NetworkPolicies`, `NetworkTraffic`). One relation, its reversal, the rules made from both,
  and the traffic that all policies together let through.
- **Resource splitting** (`ResourceSplit`, `SinglePrecision`, `SafeTotals`). Exact arithmetic, any rounding to nearest
  in the binary32 format of IEEE 754-2019, and the totals that are never exceeded.
- `Strings` and `Wrappers` hold the string operations and the result types the others share.

Objects that the operator updates in place are classes with `modifies` clauses; each of their methods is proved
against a function of the old state, and the theorems are about those functions. State machines have an event type, a
predicate saying which events are possible, a step function, and theorems over all sequences of events.

## What the proofs say about the code

The main guarantees hold as promised. These are the places where the code does less than, or something other than, its
comments or a reader would expect; each names the lemma that gives the exact condition or an input.

- A certificate whose validity equals the refresh setting is never renewed before it expires
  (`internal/certrotation/rotation.go:161-164`; `CertPolling.RenewalWindow`). A CA in this state also shrinks the
  lifetime of the targets it issues without limit (`CertBounds.MinimumLifetime`).
- The test for a missing notBefore looks at notAfter again (`internal/certrotation/rotation.go:145`), so that an
  absent notBefore is reported as a bad expiry (`Rotation.BadExpiryMeans`).
- Trust between components breaks in a pass exactly when it stores a new target but not the bundle, and the stored
  bundle does not hold its signer (`CertTrust.TrustAfterPass`); over runs, `CertTrust.TrustContinuity`.
- The checker returns an error, not an expiry, while the stored bundle is empty (`CertHandlers.EmptyBundleIsAnError`),
  and this is the only case in which it disagrees with the builder (`CertHandlers.CheckerAgreesExactly`). With a CA
  validity that is not negative the case does not come up in a run (`CertPolling.RunKeepsBundle`).
- With the refresh setting at exactly four fifths of the validity, rounding can make the check interval one nanosecond
  too long to catch a certificate in its last fifth (`CertPolling.NoMissedRenewal`).
- An update of a StatefulSet that the code takes for allowed does rewrite the labels of its claim templates
  (`internal/manifests/mutate.go:328-332`; `Mutate.ImmutableFieldsKept`).
- Some desired changes never take effect on an existing object: the role of a binding, the selector of a Deployment,
  the class of an Ingress, the type of a Secret, and all of a Service but ports and selector; keys are never removed
  from a merged map (`Mutate.TakesEffectExactly`).
- The cluster-scoped names of two instances can coincide (`Labels.ClusterRoleNamesCollide`), and then finalizing one
  can delete the other's object (`Finalizer.OthersUntouched`).
- An instance that is released while unmanaged leaves its cluster-scoped objects behind, and nothing else makes them
  outlive it (`internal/controller/tempo/tempostack_controller.go:119-131`; `Finalizer.LeaksExactly`).
- The pods of the gateway are looked up but do not count for the Ready condition
  (`internal/status/components.go:112-147`; `Status.GatewayDoesNotCount`).
- A failing pod list wipes all conditions of a TempoStack (`Conditions.SomeConditionTrue`) and the recorded operator
  version, which is then filled with the running one (`Conditions.UpgradeAfterStatus`). The steps of a failed upgrade
  are lost exactly when this is stored before any attempt has stored the spec (`UpgradeRuns.StepsLost`), and they do
  not come back (`UpgradeRuns.LostForGood`).
- A Failed or ConfigurationError condition of a TempoMonolithic that is reset keeps its old transition time
  (`Monolithic.TransitionTimes`).
- A TempoMonolithic of which nothing could be looked up, or whose pods are in an unknown phase, is called ready
  (`Monolithic.LookupMeanings`).
- A component that uses the object storage may send to every component on every port, as far as its own policy goes:
  the rule for the storage admits any port to any namespace (`NetworkPolicies.EgressMeans`). The compactor's own
  policy does not restrict what it receives at all, since the relation has no edge to it (`NetworkTraffic.OwnTypes`);
  the policies for all pods do. What all policies together let through is `NetworkTraffic.TrafficMeans`. Line 416 of
  `internal/manifests/networkpolicies/components.go` replaces the metrics generator's entry and drops its trace export
  edge; it gets out all the same through the storage rule (`NetworkPolicies.MetricsGeneratorExport`).
- With Jaeger authentication enabled the gateway's fractions are not used, so that an enabled gateway has no limits at
  all (`internal/manifests/manifestutils/resources.go:62-70`; `ResourceSplit.GatewayUnlimited`).
- In single precision no total up to 16777298 is exceeded, whatever the table, the replica counts and the rounding to
  nearest (`SafeTotals.SafeTotal`): for CPU that is 16777 cores, for memory, counted in bytes, only 16 MiB. With the
  default rounding the next total is exceeded (`SafeTotals.SafeExactly`). Beyond, the excess is bounded
  (`SinglePrecision.SinglePrecisionConservation`) and does occur for every rounding to nearest
  (`SinglePrecision.Overshoot`).

## Model

| member | source | states |
|---|---|---|
| `Certificates.SignerNameInjective` | internal/certrotation/rotation.go:35 | two CAs of one stack share a name only if they were made within the same second |
| `Rotation.TargetNeedsNewCertificate` | internal/certrotation/rotation.go:80-116 | the reason given for a target: time rules first, then a missing issuer name, an issuer whose name no CA of the bundle has, and hostnames that differ |
| `Rotation.HostnameRoundTrip` | internal/certrotation/rotation.go:104-131 | the hostname annotation of a new certificate reads back as the required set exactly when that set is not empty and no name contains a comma |
| `Rotation.QuietExactly` | internal/certrotation/rotation.go:80-116 | a target is left alone exactly if no time rule applies, some CA of the bundle has the name of its issuer, and its annotation lists exactly the required names |
| `Rotation.QuietMeansNamed` | internal/certrotation/rotation.go:104-113 | a target that is left alone carries the required names |
| `Rotation.RenewalDeadline` | internal/certrotation/rotation.go:153-188 | the time rules amount to one deadline, for any annotations that hold instants: there is a reason exactly after it |
| `Rotation.TimeRules` | internal/certrotation/rotation.go:153-188 | the time rules in numbers: expired, less than a fifth of the validity left, or past the refresh time and a tenth of it into the life of the signer |
| `Rotation.ReasonPersists` | internal/certrotation/rotation.go:134-188 | a time reason never goes away by waiting |
| `Rotation.QuietMeansFifthLeft` | internal/certrotation/rotation.go:155-170 | a certificate that raises no reason has a fifth of its validity ahead, unless its validity is the refresh setting |
| `Rotation.NewbornIsQuiet` | internal/certrotation/rotation.go:155-188 | a certificate issued at this instant raises no time reason |
| `Rotation.BadExpiryMeans` | internal/certrotation/rotation.go:134-153 | an expiry is called bad exactly when the notAfter is garbled, or is there and the notBefore is absent or garbled |
| `CertBuild.Secret.constructor` | internal/certrotation/target.go:80-99 | a new secret starts from the annotations and data of the stored one |
| `CertBuild.Secret.SetSigningCertKeyPair` | internal/certrotation/signer.go:79-102 | the secret holds a fresh CA named after the issuer and the second, with annotations that describe it, or is unchanged on error |
| `CertBuild.Secret.SetTargetAnnotations` | internal/certrotation/rotation.go:118-132 | whatever order the hostnames are visited in, the annotation is the sorted list |
| `CertBuild.Secret.SetTargetCertKeyPair` | internal/certrotation/target.go:102-129 | the new target ends at the earlier of now plus the configured validity and the end of its signer; without hostnames nothing changes |
| `CertBuild.Dedupe` | internal/certrotation/cabundle.go:76-86 | the same certificates, each once |
| `CertBuild.ManageCABundle` | internal/certrotation/cabundle.go:59-89 | the bundle is the signer and the stored CAs, without the expired ones and each once; text that does not parse is an error |
| `CertBuild.Options.BuildSigningCASecret` | internal/certrotation/signer.go:32-55 | a new CA exactly when there is a reason for one, the stored one otherwise |
| `CertBuild.Options.BuildCABundle` | internal/certrotation/cabundle.go:17-35 | the rebuilt bundle, also kept for the next stage |
| `CertBuild.Options.BuildTargetCertKeyPairSecrets` | internal/certrotation/target.go:55-78 | every target is replaced exactly if it has a reason, whatever order the map is visited in |
| `CertBuild.Options.Build` | internal/certrotation/build.go:18-40 | signer, then bundle, then targets, each stage using the one before; the first error ends it |
| `CertBuild.Options.ApplyDefaultSettings` | internal/certrotation/build.go:43-78 | every component gets its three hostnames and keeps its stored secret |
| `CertBuild.HostnamesRepresentable` | internal/certrotation/build.go:62-66 | the configured hostnames survive the annotation when service and namespace contain no comma |
| `CertHandlers.Client.CreateOrUpdate` | internal/certrotation/handlers/rotate_certs.go:76-84 | one object is stored as built, or nothing changes |
| `CertHandlers.ObjectsOf` | internal/certrotation/build.go:19-39 | the list written to the cluster holds every built object once |
| `CertHandlers.Client.WriteAll` | internal/certrotation/handlers/rotate_certs.go:60-100 | exactly the objects whose write fails are missing afterwards, and the count is their number |
| `CertHandlers.Client.GetOptions` | internal/certrotation/handlers/options.go:17-66 | the stored objects that exist, or nothing if any of them cannot be read |
| `CertHandlers.Client.CreateOrRotateCertificates` | internal/certrotation/handlers/rotate_certs.go:28-102 | the cluster holds what was built from its old state, as far as writes went through; a stack that is gone or unreadable, an object that cannot be read, or a failed build changes nothing |
| `CertHandlers.WritesExactly` | internal/certrotation/handlers/rotate_certs.go:28-60 | something is written exactly if the stack and all that is looked up can be read and building succeeds |
| `CertHandlers.CheckCertExpiry` | internal/certrotation/handlers/check_cert_expiry.go:32-38 | the signer first, then the targets against the stored bundle, quiet while something is missing |
| `CertHandlers.RebuiltBundleSameReason` | internal/certrotation/target.go:40-45 | for a signer that is kept and a trusted target, the stored and the rebuilt bundle give the same verdict |
| `CertHandlers.CheckerAgreesExactly` | internal/certrotation/handlers/check_cert_expiry.go:32-38 | when all objects exist and are trusted, an expiry is reported exactly when building at this instant would replace some key pair, and this agreement holds exactly unless the signer is kept, there are targets, and the stored bundle is empty |
| `CertHandlers.CheckerAgreesWithBuilder` | internal/certrotation/handlers/check_cert_expiry.go:32-38 | the agreement for a stored bundle that is not empty |
| `CertHandlers.ReportsTheReplaced` | internal/certrotation/target.go:17-53 | the targets that are reported are exactly those whose key pair would be replaced |
| `CertHandlers.QuietWhileMissing` | internal/certrotation/handlers/check_cert_expiry.go:32-38 | while an object is missing, only an expired signer is reported |
| `CertHandlers.EmptyBundleIsAnError` | internal/certrotation/target.go:17-37 | the error about the bundle is returned exactly when all objects exist, the signer is kept, and the stored bundle is empty or does not parse |
| `CertSafety.StepKeepsWellFormed` | internal/certrotation/target.go:110-115 | no pass, with any writes failing, leaves annotations that misdescribe their certificate or a target that outlives its issuer |
| `CertSafety.RunKeepsWellFormed` | internal/certrotation/target.go:110-115 | the same over every run |
| `CertSafety.PassAnchors` | internal/certrotation/cabundle.go:73-86 | a pass that stores the bundle keeps trust, and one that stores everything restores it |
| `CertSafety.BuildSucceeds` | internal/certrotation/build.go:18-40 | in a reachable state, with an issuer prefix and hostnames for every component, building does not fail |
| `CertSafety.BuildFailsExactly` | internal/certrotation/build.go:18-40 | in a reachable state building fails exactly if a signer is due without an issuer prefix, or some target has no hostnames |
| `CertBounds.RebuiltIdempotent` | internal/certrotation/cabundle.go:73-86 | rebuilding a rebuilt bundle at the same instant changes nothing |
| `CertBounds.SignerFacts` | internal/certrotation/signer.go:32-55 | the signer a pass uses is unexpired, named, no longer due, and newer than a replaced one by more than the refresh setting |
| `CertBounds.RotationFixpoint` | internal/certrotation/build.go:18-40 | after a full pass a second one at the same instant builds exactly what is stored |
| `CertBounds.MinimumLifetime` | internal/certrotation/target.go:110-117 | every signer that is kept leaves a new target the smaller of the configured validity and a fifth of its own, exactly unless its validity is the refresh setting |
| `CertBounds.IssuedTargetLifetime` | internal/certrotation/target.go:110-117 | every target that a pass issues has at least that lifetime |
| `CertBounds.IssuedTargetEnds` | internal/certrotation/target.go:110-117 | a target issued now ends exactly at the earlier of now plus the configured validity and the end of its signer |
| `CertBounds.GreatestLifetimes` | internal/certrotation/target.go:110-117 | over every run, with any writes failing, no stored target lives longer than the configured validity, and every CA lives exactly as long as configured |
| `CertBounds.BundleBound` | internal/certrotation/cabundle.go:59-89 | while the signer is never lost, the CAs in the bundle besides the newest, times the refresh period, stay below the validity |
| `CertTrust.TrustAfterPass` | internal/certrotation/handlers/rotate_certs.go:62-100 | a pass keeps trust exactly if it stores the bundle, or its signer is in the stored bundle, or it stores no new target |
| `CertTrust.TrustContinuity` | internal/certrotation/target.go:110-115 | in every run, with any writes failing, each unexpired target was at every moment issued by an unexpired CA of the bundle exactly if every pass kept to this |
| `CertTrust.StoredBundlesKeepTrust` | internal/certrotation/target.go:110-115 | in particular trust lasts throughout every run in which bundle writes go through, for any settings |
| `CertTrust.Recovery` | internal/certrotation/handlers/rotate_certs.go:62-100 | after any run with any writes lost, one full pass restores trust, and it lasts for as long as the passes after it keep to this |
| `CertTrust.LostBundleBreaksTrust` | internal/certrotation/handlers/rotate_certs.go:79-84 | for every stack that can be built, a first pass that stores a target but not the bundle leaves an unexpired target that nothing in the bundle vouches for |
| `CertPolling.RenewalWindow` | internal/certrotation/rotation.go:155-170 | every check schedule with gaps of at most g catches a certificate in its last fifth exactly when g is at most that fifth and the validity is not the refresh setting |
| `CertPolling.NoMissedRenewal` | internal/controller/tempo/certrotation_controller.go:112-119 | for refresh settings of at most four fifths of the validity, if at most a day or with a validity of at least sixty hours, the chosen interval meets that condition exactly unless the refresh setting is at most a day and is the longest allowed for a validity that leaves remainder 4 when divided by 5 |
| `CertPolling.PassMakesHealthy` | internal/certrotation/build.go:18-40 | a full pass leaves every component with a trusted certificate that has a fifth of the least validity ahead |
| `CertPolling.QuietPollIsHealthy` | internal/certrotation/handlers/check_cert_expiry.go:32-38 | so does a check that reports nothing |
| `CertPolling.PartialPassLasts` | internal/certrotation/handlers/rotate_certs.go:62-100 | a pass of which any part is stored that keeps trust shortens no lifetime |
| `CertPolling.NoOutage` | internal/controller/tempo/certrotation_controller.go:67-101 | from the first pass on, and while at most n checks or passes in a row fail, with any part of a pass stored that keeps trust, checks no further apart than a fifth of the least validity divided by n + 1 keep every component served at every instant, through all rotations of targets and CA |
| `CertPolling.DefaultSettingsAreSound` | internal/controller/tempo/certrotation_controller.go:112-119 | the built-in settings and the interval chosen for them meet the condition of NoOutage for 35 failures in a row |
| `CertPolling.RunKeepsBundle` | internal/certrotation/cabundle.go:59-89 | with a CA validity that is not negative, no run leaves a stored bundle that is empty |
| `CertPolling.CheckerAgreesInRun` | internal/certrotation/handlers/check_cert_expiry.go:32-38 | in every run whose passes keep trust, whenever all objects exist, the checker and the builder agree |
| `CertHosts.OccurrencesKeepGenuine` | internal/certrotation/rotation.go:104-113 | in every run in which any writes fail and the required names change at any time, stored certificates stay genuine, whatever names they carry |
| `CertHosts.QuietCheckMeansNamed` | internal/certrotation/handlers/check_cert_expiry.go:32-38 | a check that reports nothing finds every certificate with the names that are required now |
| `CertHosts.NewNamesAreReported` | internal/certrotation/rotation.go:104-113 | over every such run, once all objects exist, a certificate with other names than are required now is reported |
| `CertHosts.NewNamesTakeEffect` | internal/certrotation/target.go:55-78 | after any such run a full pass leaves every required certificate with the names that are required now |
| `CertHosts.NewNamesAreServed` | internal/controller/tempo/certrotation_controller.go:67-101 | from that pass on, and while the conditions of NoOutage hold, every component is served under the new names at every instant |
| `CertHosts.RequiredNames` | internal/certrotation/build.go:62-66 | the certificate of a component must carry localhost and the short and the long name of its service in the cluster, and no others |
| `CertHosts.ReachedUnderItsNames` | internal/certrotation/build.go:58-75 | after a full pass it carries exactly these |
| `Mutate.ClaimTemplatesChanged` | internal/manifests/mutate.go:300-312 | changed exactly if the counts, or some name, annotations or spec differ |
| `Mutate.LiveObject.MutateConfigMap` | internal/manifests/mutate.go:181-194 | labels and annotations are replaced; data too, unless a CA bundle is to be injected |
| `Mutate.LiveObject.MutateService` | internal/manifests/mutate.go:262-268 | ports are replaced, the selector is merged |
| `Mutate.LiveObject.MutateIngress` | internal/manifests/mutate.go:230-236 | backend, rules and TLS are replaced, nothing else |
| `Mutate.LiveObject.MutateDeployment` | internal/manifests/mutate.go:282-298 | the selector of an existing Deployment stays |
| `Mutate.LiveObject.MutateStatefulSet` | internal/manifests/mutate.go:314-337 | an existing StatefulSet with another selector or other claim templates is refused and unchanged |
| `Mutate.LiveObject.Mutate` | internal/manifests/mutate.go:44-155 | the object as the kind's rules make it, or the refusal |
| `Mutate.UpdateSettles` | internal/manifests/mutate.go:44-155 | an accepted update yields what was asked for, and asking again is accepted and changes nothing |
| `Mutate.TakesEffectExactly` | internal/manifests/mutate.go:181-337 | an accepted update of an existing object makes its content the desired one exactly when the fields that updates never write agree already, and otherwise no further update does |
| `Mutate.MetadataAfterUpdate` | internal/manifests/mutate.go:44-155 | labels and annotations of a Service, Deployment or StatefulSet are only added to and overridden; those of other kinds become the desired ones, but for the annotations of a ServiceAccount |
| `Mutate.CreatedAsDesired` | internal/manifests/mutate.go:44-155 | a new object is created exactly as desired |
| `Mutate.ImmutableFieldsKept` | internal/manifests/mutate.go:314-332 | an accepted update keeps selector and compared claim fields; the claims as a whole stay the same exactly when labels and type data agree too |
| `Mutate.ClaimLabelIsUpdated` | internal/manifests/mutate.go:328-332 | an accepted update that changes a claim template |
| `Reconcile.ApiServer.CreateOrUpdateObject` | internal/controller/tempo/common.go:152 | get, mutate, then create, update or nothing; any call may fail |
| `Reconcile.ApiServer.CreateOrUpdateRetrying` | internal/controller/tempo/common.go:150-154 | only conflicts are retried, at most five attempts |
| `Reconcile.ApiServer.ReconcileObject` | internal/controller/tempo/common.go:138-170 | an immutable change deletes the object; its identity is kept from pruning unless it could not be owned |
| `Reconcile.ScopeDecides` | internal/controller/tempo/common.go:108-144 | cluster-scoped objects are always applicable and get no owner; others need an owner in their namespace, and no other one |
| `Reconcile.ApiServer.ApplyManaged` | internal/controller/tempo/common.go:130-171 | the errors counted and the objects left to prune |
| `Reconcile.ApiServer.Prune` | internal/controller/tempo/common.go:176-194 | one delete for each object of the map, in whatever order; it fails exactly if one of them does |
| `Reconcile.ApiServer.ReconcileManagedObjects` | internal/controller/tempo/common.go:119-196 | pruning happens exactly if applying raised no error |
| `ReconcileSafety.ApplyAllIsLocal` | internal/controller/tempo/common.go:132-171 | whatever fails, applying touches managed objects only |
| `ReconcileSafety.KeptUids` | internal/controller/tempo/common.go:169-170 | without errors the identities kept from pruning are those of the managed objects |
| `ReconcileSafety.PruneExactness` | internal/controller/tempo/common.go:128-193 | without errors exactly the owned objects that are not managed are deleted, each by one request; after any error none is |
| `ReconcileSafety.MissingIsReported` | internal/controller/tempo/common.go:176-194 | an object that is to be pruned but no longer there is reported as an error |
| `ReconcileSafety.ReconcileKeepsLineage` | internal/manifests/mutate.go:314-323 | a run with any failing calls keeps the immutable fields of every StatefulSet that stays the same object |
| `ReconcileSafety.ImmutableForever` | internal/manifests/mutate.go:314-323 | the same over any history of runs with any desired objects |
| `Retrying.MildStep` | internal/controller/tempo/common.go:150-165 | an object that meets at most four conflicts and no other fault takes the step it takes when no call fails |
| `Retrying.FiveConflicts` | internal/controller/tempo/common.go:150-165 | no object meets more than five conflicts; the fifth ends the attempts, is counted, and leaves the object as it was |
| `Retrying.DeniedEnds` | internal/controller/tempo/common.go:150-165 | a call turned down for another reason is the last one for its object, is counted, and leaves the object as it was |
| `Retrying.CallsBounded` | internal/controller/tempo/common.go:150-160 | no object takes more than eleven calls |
| `Convergence.SettledAfterTwo` | internal/controller/tempo/common.go:156-160 | two runs settle any object, even one that the first had to delete |
| `Convergence.RunHasEffect` | internal/controller/tempo/common.go:119-196 | in a smooth run, in which every object may meet up to four conflicts, every managed object takes one step and no owned object that is not managed survives |
| `Convergence.RunReports` | internal/controller/tempo/common.go:165-194 | when no object meets more than four conflicts or another fault, a run ends in an error exactly if an object could not be owned or updated, or a deletion failed |
| `Convergence.QuietRun` | internal/controller/tempo/common.go:119-196 | a smooth run leaves a settled store as it is |
| `Convergence.Converges` | internal/controller/tempo/common.go:119-196 | two smooth runs reach a store that satisfies every desired object, and a third writes nothing |
| `Convergence.ReliableIsSmooth` | internal/controller/tempo/common.go:119-196 | a run in which no call fails is smooth |
| `Labels.SelectsOwnOnly` | internal/manifests/manifestutils/labels.go:25-37 | the cluster-wide selector finds the objects of exactly its own instance |
| `Labels.CommonSelectorIgnoresNamespace` | internal/manifests/manifestutils/labels.go:16-22 | the namespaced selector would also find those of every instance of the same name |
| `Labels.ClusterRoleNamesCollide` | internal/manifests/gateway/gateway.go:88-97 | two different instances whose cluster-scoped objects have one name |
| `Finalizer.StepKeepsSafe` | internal/controller/tempo/tempostack_controller.go:106-139 | every event, by user or worker, keeps the guard and what each worker believes |
| `Finalizer.FinalizerSafety` | internal/controller/tempo/tempostack_controller.go:106-139 | over every run with failing calls, restarts and interleaving writes, objects with the labels of an instance that is never unmanaged exist only while it exists with the finalizer |
| `Finalizer.LeaksExactly` | internal/controller/tempo/tempostack_controller.go:116-138 | with users who may do anything, the objects outlive their instance or its finalizer in exactly those runs in which it is released from the unmanaged branch while they exist |
| `Finalizer.OthersUntouched` | internal/controller/tempo/finalizer.go:26-62 | whatever other instances take part, finalizing or pruning for one instance can delete an object of another exactly when both have the same cluster-scoped name |
| `Finalizer.Reconciler.FindClusterRoleObjects` | internal/controller/tempo/finalizer.go:46-62 | the objects whose labels match, of both kinds, or nothing if a list fails |
| `Finalizer.Reconciler.DeleteObjects` | internal/controller/tempo/finalizer.go:26-43 | every object is tried once; without a failure exactly the listed ones are gone |
| `Finalizer.Reconciler.ReconcileDeleted` | internal/controller/tempo/tempostack_controller.go:116-138 | the deletion branch is a run of the machine; without failing calls the instance and its objects are gone |
| `Finalizer.Reconciler.Reconcile` | internal/controller/tempo/tempostack_controller.go:89-145 | the code is a run of the machine and goes on exactly for managed instances that hold the finalizer |
| `SemVer.NumbersDecide` | internal/upgrade/upgrade.go:134-140 | the first difference of major, minor and patch decides; for equal numbers a version with a pre-release is lower than the one without, and otherwise the pre-releases decide |
| `SemVer.PrecedenceTotal` | internal/upgrade/upgrade.go:135-140 | of two versions exactly one is lower, or they differ in build metadata only |
| `SemVer.PrecedenceTransitive` | internal/upgrade/upgrade.go:135-140 | precedence is transitive, pre-releases included |
| `SemVer.FirstDifference` | internal/upgrade/upgrade.go:135-140 | pre-releases are ordered by their first difference, and a list of identifiers is above each of its beginnings |
| `SemVer.StandardExamples` | internal/upgrade/upgrade.go:135-140 | seven examples: the chain of versions in section 11 of Semantic Versioning 2.0.0 |
| `Upgrade.RunThrough` | internal/upgrade/upgrade.go:139-167 | stopping at an intermediate version changes neither success nor result |
| `Upgrade.NewerIsLeft` | internal/upgrade/upgrade.go:134-137 | an instance whose numbers are higher than those of the operator keeps its spec and its recorded version |
| `Upgrade.UpgradeFailsExactly` | internal/upgrade/upgrade.go:110-174 | an upgrade ends in an error exactly if a version cannot be read, or a step above the version of an instance that is not newer fails |
| `Upgrade.PathIndependence` | internal/upgrade/upgrade.go:110-174 | for v <= w <= x and any ascending table, upgrading to w and then to x succeeds exactly when going to x directly does, with the same spec and version |
| `Upgrade.Redo` | internal/upgrade/upgrade.go:139-167 | running commuting idempotent steps again from an older version only brings the spec up to date |
| `Upgrade.CrashSafeUpgrade` | internal/upgrade/upgrade.go:80-98 | after any attempts by ascending releases, failing in steps or in either patch, the attempt that goes through leaves the spec of a direct upgrade of the original; status writes between them are the subject of UpgradeRuns |
| `UpgradeSteps.TableIsSafe` | internal/upgrade/versions.go:24-57 | the shipped table is ascending and its steps commute and are idempotent |
| `UpgradeSteps.AllStepsApplied` | internal/upgrade/versions.go:24-57 | what all steps together make of a spec, field by field |
| `UpgradeSteps.UpgradeByNumbers` | internal/upgrade/upgrade.go:134-174 | an instance that is not newer than the operator gets exactly the changes of the steps above its numbers, field by field, and records the versions of the operator |
| `UpgradeSteps.TempoStack.Upgrade0_3_0` | internal/upgrade/v0_3_0.go:10-21 | the deprecated limit is cleared globally and for every tenant, all else kept |
| `UpgradeSteps.TempoStack.Upgrade0_6_0` | internal/upgrade/v0_6_0.go:11-17 | the four images are cleared, all else kept |
| `UpgradeSteps.TempoStack.Upgrade0_8_0` | internal/upgrade/v0_8_0.go:11-16 | TLS is enabled if a CA is named, all else kept |
| `UpgradeSteps.TempoStack.Upgrade0_15_4` | internal/upgrade/v0_15_4.go:10-15 | one endpoint moves to the other port, all else kept |
| `UpgradeSteps.Upgrader.UpgradeCopy` | internal/upgrade/upgrade.go:110-174 | the selected steps on a copy, or the original and the error |
| `UpgradeSteps.ApiServer.Patch` | internal/upgrade/upgrade.go:82-89 | patching the object leaves the stored status alone |
| `UpgradeSteps.Upgrader.UpgradeStored` | internal/upgrade/upgrade.go:59-104 | the stored resource after two patches of which either may fail |
| `UpgradeRuns.ForgettingMatters` | internal/status/status.go:15-22 | a status write changes what later upgrades depend on exactly if it is stored with a failing pod list while the version is not up to date |
| `UpgradeRuns.CrashSafeRounds` | internal/controller/tempo/tempostack_controller.go:149-161 | crash safety over whole reconciliations: after any rounds without such a write, by ascending releases, the attempt that goes through leaves the spec of a direct upgrade of the original |
| `UpgradeRuns.OneRelease` | internal/controller/tempo/tempostack_controller.go:149-246 | while one release runs, whatever fails and whatever status is written, the spec is the original one until some round stores it, and from then on that of the direct upgrade |
| `UpgradeRuns.VersionsMatch` | internal/status/status.go:15-22 | while one release runs, whatever fails: once its version is recorded, so is the version of Tempo that it runs |
| `UpgradeRuns.StepsLost` | internal/status/status.go:15-22 | the release takes a resource for up to date whose spec is not exactly when such a write came before any round stored the spec, and there was something to change |
| `UpgradeRuns.LostForGood` | internal/controller/tempo/tempostack_controller.go:149-161 | a resource that is taken for up to date is not upgraded by further rounds of the release |
| `UpgradeRuns.ShippedTable` | internal/upgrade/versions.go:24-57 | an operator from 0.15.4 on ships every step of the table, which is safe |
| `UpgradeRuns.OperatorIsCrashSafe` | internal/upgrade/upgrade.go:57-174 | the two results above for the operator and its own table |
| `UpgradeRuns.LostLimit` | internal/upgrade/v0_3_0.go:10-21 | an instance of 0.2.0 that keeps a removed setting under version 0.15.4, because one step and one pod list failed together |
| `Status.NamesTellCounts` | internal/status/components.go:88-98 | a status has names exactly if some pod that is not terminating has it |
| `Status.NamesAreOfPods` | internal/status/components.go:80-101 | under a status are exactly the names of the pods that have it and are not terminating |
| `Status.EachPodOnce` | internal/status/components.go:80-101 | every pod that is not terminating is listed once |
| `Status.PodStatusOf` | internal/status/components.go:13-33 | a running pod is ready exactly if all its containers are |
| `Status.AppendPodStatus` | internal/status/components.go:80-101 | the names under each status, terminating pods left out |
| `Status.ComponentsCondition` | internal/status/components.go:103-153 | nothing if a pod list fails, else the condition that the counted pods call for |
| `Status.WhoCounts` | internal/status/components.go:36-153 | all components are looked up, and count but for the gateway; the metrics generator does only if it is enabled |
| `Status.LookupFailsExactly` | internal/status/components.go:36-78 | the lookup fails exactly if the list call for one of them does |
| `Status.ReadyMeansHealthy` | internal/status/components.go:111-153 | Ready exactly when every pod of the six counted components that is not terminating is ready or has succeeded |
| `Status.FailedMeansBroken` | internal/status/components.go:111-132 | Failed exactly when some such pod failed or is in an unknown phase |
| `Status.GatewayDoesNotCount` | internal/status/components.go:111-147 | the gateway's pods have no influence |
| `Conditions.UpdateCondition` | internal/status/conditions.go:65-102 | early return, reset of all, and replacement or append, as one function of the old list |
| `Conditions.UpdateFacts` | internal/status/conditions.go:65-102 | kinds stay distinct and the updated condition becomes the only true one |
| `Conditions.OthersAfterUpdate` | internal/status/conditions.go:85-93 | the other conditions keep reason and message, and are reset with a new transition time exactly when the list did not already say what is wanted |
| `Conditions.Gauges.UpdateMetrics` | internal/status/metrics.go:25-42 | every known condition gets a gauge, 1 exactly for the true ones |
| `Conditions.Gauges.Clear` | internal/status/metrics.go:45-50 | all gauges are 0 |
| `Conditions.Reconciler.GetComponentsStatus` | internal/status/components.go:103-153 | the old status with the condition updated, or an empty status if a pod list fails |
| `Conditions.Reconciler.HandleReconcileStatus` | internal/controller/tempo/tempostack_controller.go:191-231 | the gauges show the new conditions even if writing them fails |
| `Conditions.ConditionsStayGood` | internal/status/conditions.go:65-102 | over every run from an empty list: distinct kinds, at most one true condition, at most one gauge at 1 |
| `Conditions.TrueCondition` | internal/controller/tempo/tempostack_controller.go:198-219 | the true condition is that of the error, or else the one the pods call for; every known condition has a gauge, and exactly the gauge of the true one is 1 |
| `Conditions.ErrorIsTold` | internal/controller/tempo/tempostack_controller.go:198-219 | an error leaves a true condition with its text, of the kind that goes with it |
| `Conditions.ComponentsAreTold` | internal/status/conditions.go:27-61 | without an error the true condition gives the reason and message that go with the state of the pods |
| `Conditions.SomeConditionTrue` | internal/status/components.go:105-108 | some condition is true exactly if there was an error to report or every pod list succeeded |
| `Conditions.UpgradeAfterStatus` | internal/status/status.go:17-19 | after a failed upgrade the steps are still selected exactly if the pods could be listed |
| `Monolithic.GetStatefulSetStatus` | internal/status/monolithic.go:25-62 | the first lagging StatefulSet counts as one pending pod, otherwise the pods are listed by status, or nothing if a call fails |
| `Monolithic.GetComponentsStatus` | internal/status/monolithic.go:64-74 | an empty map with an error if a call fails |
| `Monolithic.MonolithicStatus.UpdateConditions` | internal/status/monolithic.go:103-170 | the four drafts made from the old conditions are set one after the other |
| `Monolithic.Reconciler.HandleStatus` | internal/status/monolithic.go:174-207 | the conditions are updated on a copy from what was looked up, the gauges show them even if the write fails, and the error is terminal exactly for a configuration error |
| `Monolithic.UpdateFacts` | internal/status/monolithic.go:103-170 | each of the four conditions is the merger of its draft with what was stored |
| `Monolithic.MonolithicConditions` | internal/status/monolithic.go:103-170 | over every run each of the four kinds occurs exactly once, and Ready is true exactly when the others are false |
| `Monolithic.TransitionTimes` | internal/status/monolithic.go:86-101 | a transition time changes only with the status, and then to now, exactly unless a Failed or ConfigurationError condition is reset |
| `Monolithic.ConditionMeanings` | internal/status/monolithic.go:106-164 | when each of the four conditions is true; Ready exactly when there is no error and no failed, pending or running pod is known |
| `Monolithic.LookupMeanings` | internal/status/monolithic.go:25-170 | the same in terms of what was looked up: Ready exactly when there is no error, no StatefulSet lags, and no pod that was found has failed, is pending or runs with a container that is not ready |
| `Monolithic.GaugesTell` | internal/status/metrics.go:25-42 | each of the four gauges is 1 exactly when its condition is called for |
| `Monolithic.PodNamesAreOfPods` | internal/status/monolithic.go:51-61 | under a status are exactly the names of the pods that have it |
| `Monolithic.EachPodOnce` | internal/status/monolithic.go:51-61 | every pod is listed once |
| `Monolithic.LaggingIsNamed` | internal/status/monolithic.go:38-49 | the first StatefulSet with fewer ready replicas than wanted is all that is listed, as a pending pod |
| `Monolithic.ErrorIsTold` | internal/status/monolithic.go:117-151 | the text of an error is in the condition that it makes true |
| `Monolithic.ComponentsAreTold` | internal/status/monolithic.go:103-164 | the reasons and messages of the conditions that pods decide |
| `NetworkPolicies.ComponentRelations` | internal/manifests/networkpolicies/components.go:203-428 | the map holds exactly the edges of the declarative relation |
| `NetworkPolicies.ReverseRelations` | internal/manifests/networkpolicies/components.go:430-443 | the reversed map holds the same edges, whatever order the maps are visited in |
| `NetworkPolicies.SortNames` | internal/manifests/networkpolicies/components.go:34-39 | the sorted list does not depend on the visiting order |
| `NetworkPolicies.PeersIdentify` | internal/manifests/networkpolicies/components.go:106-189 | the pods of a component are named by its own rules only |
| `NetworkPolicies.GeneratePolicyFor` | internal/manifests/networkpolicies/components.go:18-104 | one policy, independent of map order |
| `NetworkPolicies.PolicyDuality` | internal/manifests/networkpolicies/components.go:18-104 | A has a rule naming B's pods that admits a port outwards exactly when B has one naming A's pods that admits it inwards, which is what the relation says, and then both have a policy |
| `NetworkPolicies.EgressMeans` | internal/manifests/networkpolicies/components.go:18-189 | the rules of A's policy let traffic out to B's pods on a port exactly if the relation says so, or A uses the object storage, or A is the gateway and the port that of the token exchange |
| `NetworkPolicies.IngressMeans` | internal/manifests/networkpolicies/components.go:18-189 | the rules of B's policy admit A's pods on a port exactly if the relation says so of A or of the whole cluster; whether the policy restricts what comes in at all is the subject of OwnTypes |
| `NetworkPolicies.MetricsGeneratorExport` | internal/manifests/networkpolicies/components.go:408-425 | the metrics generator has no trace export edge, and its storage rule admits every port to any address exactly if it is enabled |
| `NetworkTraffic.GenerateOperandPolicies` | internal/manifests/networkpolicies/operands.go:10-45 | the policies for gossip, metrics and name service and one for each component, in order; none if they are switched off |
| `NetworkTraffic.OwnTypes` | internal/manifests/networkpolicies/components.go:66-104 | every component's own policy restricts what it sends, and what it receives unless it is the compactor |
| `NetworkTraffic.TrafficMeans` | internal/manifests/networkpolicies/policies.go:146-368 | under all policies together, traffic from A to B on a port passes exactly if it is a gossip port, or the relation says so, or A may send everywhere and B is open to the whole cluster on that port; without policies all traffic passes |
| `NetworkTraffic.ConnectionsInNumbers` | internal/manifests/networkpolicies/components.go:203-428 | which component sends to which, on which port numbers |
| `NetworkTraffic.OpenInNumbers` | internal/manifests/networkpolicies/components.go:203-428 | which ports of which component are open to the whole cluster |
| `NetworkTraffic.ServersInNumbers` | internal/manifests/networkpolicies/components.go:203-428 | who sends to the API server, the token exchange, Prometheus and the object storage, and on which ports |
| `NetworkTraffic.ExportsInNumbers` | internal/manifests/networkpolicies/components.go:203-428 | which components export traces, and on which ports |
| `NetworkTraffic.PathsAreOpen` | internal/manifests/networkpolicies/components.go:203-428 | under all policies the write path leads from gateway to distributor to ingester and the query path from gateway to query frontend to querier to ingester |
| `NetworkTraffic.StorageIsReached` | internal/manifests/networkpolicies/components.go:106-189 | every component that reads or writes traces reaches any place on any port, as the object storage may be anywhere |
| `NetworkTraffic.NamesAreResolved` | internal/manifests/networkpolicies/policies.go:268-368 | every component reaches the name service of its platform over TCP and UDP |
| `NetworkTraffic.MetricsAreScraped` | internal/manifests/networkpolicies/policies.go:224-266 | the platform's monitoring reaches the metrics port of every component |
| `NetworkTraffic.ExportIsReached` | internal/manifests/networkpolicies/components.go:106-189 | every component that exports traces reaches addresses outside the cluster on both export ports |
| `NetworkTraffic.ApiServerIsReached` | internal/manifests/networkpolicies/components.go:106-189 | the gateway has a rule for every known address of the API server, or for any address if none is known |
| `ResourceSplit.TablesSumToOne` | internal/manifests/manifestutils/resources.go:18-46 | each table gives away exactly the whole of CPU and of memory |
| `ResourceSplit.FindsRow` | internal/manifests/manifestutils/resources.go:72 | the names of a table are different, so each row is found by its name |
| `ResourceSplit.SizeDecides` | internal/manifests/manifestutils/resources.go:54-110 | a named size decides alone; an absent replica count counts like one |
| `ResourceSplit.ExactAmounts` | internal/manifests/manifestutils/resources.go:79-106 | in exact arithmetic a limit is the fraction of the total divided by the replicas and rounded down, and a request three tenths of it |
| `ResourceSplit.PlainLimits` | internal/manifests/manifestutils/resources.go:18-26 | the limits of each component for a given total, without gateway and Jaeger authentication |
| `ResourceSplit.ProxyLimits` | internal/manifests/manifestutils/resources.go:27-36 | the same with Jaeger authentication |
| `ResourceSplit.GatewayLimits` | internal/manifests/manifestutils/resources.go:37-46 | the same with the gateway |
| `ResourceSplit.ComponentBound` | internal/manifests/manifestutils/resources.go:79-83 | all replicas of a component together get at most its fraction, up to the rounding error |
| `ResourceSplit.Conservation` | internal/manifests/manifestutils/resources.go:54-110 | for every table, total, replica counts and rounding of relative error u, the limits together exceed the total by at most five rounding errors |
| `ResourceSplit.ExactConservation` | internal/manifests/manifestutils/resources.go:54-110 | in exact arithmetic the limits together never exceed the total |
| `ResourceSplit.NothingWasted` | internal/manifests/manifestutils/resources.go:54-110 | in exact arithmetic at most one unit for each replica is lost by truncation |
| `ResourceSplit.RequestWithinLimit` | internal/manifests/manifestutils/resources.go:85-107 | requests never exceed limits, however results are rounded |
| `ResourceSplit.GatewayUnlimited` | internal/manifests/manifestutils/resources.go:60-75 | an enabled gateway gets no limits and requests, in spite of totals, exactly if Jaeger authentication is enabled |
| `SinglePrecision.NearestIsAccurate` | internal/manifests/manifestutils/resources.go:79-106 | rounding to the nearest binary32 number has a relative error of at most 2^-24 throughout the range |
| `SinglePrecision.SinglePrecisionConservation` | internal/manifests/manifestutils/resources.go:54-110 | the single-precision code exceeds the total by at most five such errors |
| `SinglePrecision.ToNearestRounds` | internal/manifests/manifestutils/resources.go:79-106 | a rounding to nearest exists, so that these results are about something |
| `SinglePrecision.Overshoot` | internal/manifests/manifestutils/resources.go:18-110 | an excess in every rounding to nearest: 768 bytes more than a total of 64 GiB of memory |
| `SafeTotals.ReplicasTake` | internal/manifests/manifestutils/resources.go:79-83 | dividing a rounded part among replicas never gives them more than the part |
| `SafeTotals.SafeTotal` | internal/manifests/manifestutils/resources.go:54-110 | for every table, replica count and rounding to nearest, no total up to 16777298 is exceeded |
| `SafeTotals.FirstExcess` | internal/manifests/manifestutils/resources.go:18-110 | the next total is exceeded by one, for CPU and for memory, in the default rounding |
| `SafeTotals.SafeExactly` | internal/manifests/manifestutils/resources.go:54-110 | in the default rounding a bound on totals is safe exactly up to 16777298 |
| `SafeTotals.ToEvenRounds` | internal/manifests/manifestutils/resources.go:79-106 | the default rounding exists |

## Left out

Assumptions of the model:

- Times are exact nanoseconds, a certificate's notBefore is the instant of its issue, and one pass reads the clock
  once. The annotations hold whole seconds in the original; the model does not round them. The boundary instant of
  expiry is that of `internal/certrotation/rotation.go:156` everywhere.
- The certificate library is replaced by contracts: a certificate is its names, times, key identity and hostnames; CAs
  of one stack are made in distinct seconds and random draws do not repeat. X.509, PEM and TLS are not part of this
  model.
- In the closed loop of `NoOutage` the reconciliation that a reported expiry asks for happens at the same instant.
- The API server does no defaulting, reads are never stale, and within one call of `reconcileManagedObjects` nobody
  else writes; what another writer would cause is modelled as a conflict that the server may return at any call. In
  `Finalizer` users do write in between, but do not remove the operator's finalizer themselves.
- `mergeWithOverride` follows the comment at `internal/manifests/mutate.go:157`, and the merge of pod templates makes
  the template the desired one; mergo itself is not part of this model.
- `meta.SetStatusCondition`, `semver.NewVersion`, `strings.Split`, `strings.Join` and `sort.Strings` are modelled by
  what they promise.

What a member states less of:

- CertPolling.NoMissedRenewal: starts at a refresh setting of four nanoseconds, below which the interval is zero and
  the controller does not come back on its own. RenewalWindow covers every gap and setting.
- CertHosts.NewNamesAreServed: the secrets that are stored are among those required, and the first pass after the
  change stores everything.
- CertPolling.NoOutage: sufficient conditions only; checks may be further apart without an outage if they happen to
  fall well. The first pass stores everything.
- CertTrust.TrustContinuity: is about settings that are not negative.
- CertPolling.CheckerAgreesInRun: is about CA validities that are not negative; CheckerAgreesExactly covers the rest.
- Convergence.Converges: a smooth run may not meet a failing delete, which the code does not try again before the next
  run, or a call that is turned down for another reason than a conflict.
- SemVer.StandardExamples: seven examples; FirstDifference and the two laws before it are the general statements.
- CertBuild.Options.ApplyDefaultSettings: has no error result, because `internal/certrotation/options.go:59-66` never
  returns one.
- CertHandlers.Client.CreateOrRotateCertificates: an owner reference that cannot be set counts as a failed write.
- Upgrade.CrashSafeUpgrade: is about steps that only change the spec; the StatefulSet deletion of version 0.5.0 and
  the scale down and ownership change of version 0.11.0 are steps that may fail and leave the spec alone.
- Upgrade.PathIndependence: the recorded Tempo version is claimed equal only if the instance does not already carry
  the final operator version.
- Finalizer.FinalizerSafety: one worker per instance at a time, as the work queue guarantees.
- UpgradeRuns.StepsLost: is about one release at a time; with several, `UpgradeRuns.CrashSafeRounds` has the condition
  under which nothing is lost.
- NetworkPolicies.IngressMeans: is about the rules of one policy, like EgressMeans; policy types and the other
  policies are the subject of `NetworkTraffic`.
- NetworkTraffic.TrafficMeans: is about pods of components of one instance, which carry the labels of their component
  and no others that the policies ask for; address blocks are meant for addresses outside the cluster.
- SafeTotals.SafeExactly: is about bounds; above the bound some totals are exceeded and others are not.
- ResourceSplit.Conservation: is about the function itself; a caller that passes no replica count for a component with
  several replicas gets the whole fraction for each.
- SinglePrecision.NearestIsAccurate: covers results between 10^-15 and 10^25, which contain all that occur for 64-bit
  totals and 32-bit replica counts.

Not modelled, because it is plumbing or repeats what is already modelled:

- Kubernetes client transport, caches, watches, back-off, events and logging.
- The copies of the rotation loop and of the finalizer for TempoMonolithic, which have the same shape.
- The builders of deployments, services, the gateway and the monolithic StatefulSet, configuration templates, hashes.
- Webhooks, size profiles, feature gates, storage secrets and the storage port of `extractStoragePorts`, which are
  parameters of the network policies.
- The discovery of the API server's addresses.
- Command line tools, custom metrics of the custom resources, and alerts.
