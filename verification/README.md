# A model of core-provider

core-provider is a Kubernetes operator. A CompositionDefinition names a Helm chart; the operator generates a
CustomResourceDefinition from it, deploys a controller for it, records what it did, and follows every change. This
project models the state it keeps across calls and proves what becomes of it, in Dafny 4.11:

    dafny verify dfyconfig.toml

| files | what they model |
|---|---|
| `Arithmetic`, `Retry`, `Kube`, `Progress` | bounded backoff in 64-bit arithmetic; get-then-write clients over a versioned store |
| `Json`, `Hash`, `HashFacts` | the digest of a stream of JSON values |
| `Generation`, `CrdClient`, `CrdFacts` | edits of a CRD's version list, and applying it to the cluster |
| `Defaults`, `DefaultsFacts`, `DefaultsFill` | filling in schema defaults |
| `Bundle`, `Naming`, `Deploy`, `DeployFacts`, `BundleContents` | naming, installing, reading back and removing the controller's objects |
| `Getters`, `Status` | moving compositions to a new version; version records in the status |
| `Reconcile`, `Convergence`, `ReconcileFacts`, `Failures`, `Upgrade`, `External` | the reconcile loop as a state machine, with and without failures; the methods that refine it |
| `Deletion` | deleting one of several definitions |
| `CertFiles`, `CertLock`, `Deadline`, `CertPropagation`, `CertManager` | certificate rotation |
| `Paths`, `Tgzfs`, `TgzfsAbsolute`, `TgzfsReads`, `TgzfsListing` | the in-memory file tree of an archive |

A cluster is a `Kube.World`: objects with resource versions, and a script that says for each request what other writers
do just before it, and whether it succeeds, is refused, or takes effect while its answer is lost. A script is *quiet*
when there are no other writers and only missing objects are reported missing, and *smooth* when nothing fails at all.
What is said of bundles, CRDs and certificates is for all quiet scripts; `Apply` with all its retries and the move of
compositions are treated under all scripts. The API server is a function from the stored and the written object to what
it stores; it is *stable* when writing the same object again changes nothing.

## What is proved

**Convergence.** With a fixed spec, from every state whose CRD is good, `Observe` is satisfied after zero, one or two
writing rounds, the number being known beforehand, unless the state belongs to one of three families; these never
converge (`ConvergesIff`):

* everything agrees with the recorded digest but the secret role or its binding is missing. The dry run still gives the
  recorded digest, so nothing is updated, and the read-back returns the "not found" as an error for these two objects
  only;
* the next update removes, with the superseded bundle, a secret object it has just deployed, and the dry run does not
  notice: the state of the first kind is one round away;
* the recorded version was recorded without a chart, and the digest in the status is not that of what the panicking
  update leaves, or what it leaves is incomplete. A version gets a chart only if it is the wanted one when it is first
  seen, and never later; `Update` dereferences it.

When the two bundles share no object, which `ApartByName` decides from resource, version and namespaces, the second
family is empty and two rounds are needed only when the status is stale and the version is missing, because the call
that rewrites the status returns without appending.

A run has moved the compositions exactly if its first round was a completed update.

**Upgrades.** What a definition records of the version it leaves is exactly what was deployed for it, so that a new
version removes the old bundle and takes the compositions along (`FirstUpgrade`). This fails in one case: a version
first recorded while another was wanted has no chart.

**Failures.** A round may be cut off at any request. Every such run keeps the CRD good, so convergence afterwards is
decided by the state it reached. A failure can leave a state that never converges, for instance one before the secret
objects are installed when the recorded digest is the right one already; `FailedDeployment` and `FailedRemoval` say
exactly when. With a chart recorded for the superseded version and no credentials secret it never happens. The digest is
recorded before the superseded bundle is removed and the compositions are moved, so either may be forgotten; the exact
conditions are in `FailedRemovalIsForgotten` and `FailedMoveIsForgotten`.

**The CRD.** Over every run each CRD has distinct version names, exactly one storage version, served real versions, one
status for all real versions and, if it has several, a complete conversion webhook. This holds unless a CRD is found
under the plural with another kind; then nothing is appended and the only storage flag is cleared. Versions are only
ever appended, provided that calls do not overlap, and keep their properties but for the status; the conversion goes to
the service the requests name.

**Defaulting.** The loop gives one result for every order of iteration. One pass is not idempotent; the exact condition
under which it is, and the number of passes that always suffice, are proved.

**Bundle.** Install, dry run, read-back and removal are written separately in the source; they hash the same stream and
touch the same keys, from every point at which they may have been interrupted.

What they say fits together: bindings, workload and ConfigMap name the account that was installed.

**Retries.** A run stops exactly at the first answer that is no retryable error, at a refused wait or at the last
attempt. So `Apply`, `Uninstall` and relabelling survive failed attempts, conflicts with other writers among them, as
long as one attempt is left, and propagation survives failed reads.

**Compositions, deletion, certificates, archives.** See the rows below. Where a promise does not hold, there is a lemma
with the input and the exact condition: deleting an unrecorded definition or one of two with the same version, a late
failure of the two-file update, failures after a certificate request was created, a directory sorted between two pages,
very large page sizes.

## Documentation and code

The comment above `ApplyOrUpdateCRD` (crd.go:140-143) says an existing version's specs are updated. The code never
changes the spec of an existing version; it rewrites the status of all versions, or appends. The model follows the code.

The help text of the lease expiration margin (main.go:63) says the margin must be less than the duration; the check
(main.go:91) also admits equality. The model follows the check.

## Model

| member | source | states |
|---|---|---|
| `Convergence.Converges` | internal/controllers/compositiondefinitions/compositiondefinitions.go:283-582 | From every state with a good CRD that does not diverge, `Observe` answers up to date after exactly `Needed` rounds (never more than two that write) and after every later round, whatever the times and CA bundles of the rounds and whether or not the superseded bundle overlaps the new one. |
| `Convergence.NeverConverges` | internal/controllers/compositiondefinitions/compositiondefinitions.go:357-373 | From a diverging state no number of rounds reaches up to date. |
| `Convergence.ConvergesIff` | internal/controllers/compositiondefinitions/compositiondefinitions.go:283-582 | For every state with a good CRD: up to date after any two rounds exactly when the state is not stuck on a lost secret object, the next update does not take such an object away unnoticed, and updates do not panic with a digest they cannot record. All three are conditions on the state before the round. |
| `Convergence.RoundProgress` | internal/controllers/compositiondefinitions/compositiondefinitions.go:394-585 | Each create or update from a state that does not diverge lowers the number of rounds still needed by one. |
| `Convergence.UpToDateStays` | internal/controllers/compositiondefinitions/compositiondefinitions.go:382-391 | Once up to date, CRD, bundle and compositions never change again; the status is refreshed once and then fixed. |
| `Convergence.DivergesStays` | internal/controllers/compositiondefinitions/compositiondefinitions.go:357-373 | A round from a diverging state ends in a diverging state; a stuck state is not changed at all. |
| `Convergence.ObserveCases` | internal/controllers/compositiondefinitions/compositiondefinitions.go:283-391 | Up to date means exactly: version listed, status equal, recorded digest equal to the dry run's and to the read-back's, secret objects present. Failure means exactly the stuck state. |
| `Convergence.AfterCreate` | internal/controllers/compositiondefinitions/compositiondefinitions.go:394-467 | A first deployment leaves everything up to date, and the compositions and the rest of the status alone. |
| `Convergence.AfterUpdate` | internal/controllers/compositiondefinitions/compositiondefinitions.go:469-570 | What an update leaves of CRD and bundle, with any overlap: what a dry run and a read-back then say, and whether the secret objects are there, read off the state before. |
| `Convergence.CompletedUpdate` | internal/controllers/compositiondefinitions/compositiondefinitions.go:533-584 | A completed update is followed by an up-to-date answer exactly if the version is listed and the removal took nothing of what was deployed, and diverges exactly if it took a secret object unnoticed. |
| `Convergence.PanickedUpdate` | internal/controllers/compositiondefinitions/compositiondefinitions.go:547-564 | A panicking update records nothing; the next one leaves the same, so it converges or diverges as the first one did. |
| `Convergence.RemovalDigests` | internal/tools/deploy/deploy.go:305-614 | After a deployment less any set of keys: both digests and the presence of the secret objects. |
| `Convergence.ApartIsSimpler` | internal/controllers/compositiondefinitions/compositiondefinitions.go:283-582 | If the superseded bundle shares no object with the new one, only the lost secret role and the nil chart remain, and the two-round case is a stale status with a missing version. |
| `Reconcile.CrdProgress` | internal/tools/crd/crd.go:184-250 | One apply creates the CRD, or rewrites a stale status, or appends a missing version, never two of these; the result is good again. |
| `Reconcile.UpdateIsFinish` | internal/controllers/compositiondefinitions/compositiondefinitions.go:533-584 | `Update` is what `Create` does, then the removal of the superseded bundle, the move of compositions and the refresh. |
| `ReconcileFacts.FirstDeployment` | internal/controllers/compositiondefinitions/compositiondefinitions.go:394-467 | A new definition whose CRD does not exist is up to date after one round, with no further hypothesis on the state. |
| `ReconcileFacts.StuckAfterDeployment` | internal/controllers/compositiondefinitions/compositiondefinitions.go:357-373 | So the stuck state is within reach on every stable server: deploy once, then lose the secret role. |
| `ReconcileFacts.LostSecretsStick` | internal/tools/deploy/deploy.go:632-668 | Losing any objects of an up-to-date definition leaves it stuck exactly when a secret object is among them and a dry run still gives the recorded digest. |
| `ReconcileFacts.DeletedSecretRoleSticks` | internal/tools/deploy/deploy.go:640-662 | Losing the secret role alone does so for ever if the server makes the same of that role whether it is there or not. |
| `ReconcileFacts.OtherVersionsLackCharts` | internal/controllers/compositiondefinitions/helpers/status/status.go:27-40 | A version first recorded while another one is wanted is recorded without a chart. |
| `ReconcileFacts.AdoptedVersionPanics` | internal/controllers/compositiondefinitions/compositiondefinitions.go:547-564 | Once such a version has been adopted, the next change of version makes `Update` dereference a nil chart. |
| `ReconcileFacts.AdoptedVersionDiverges` | internal/controllers/compositiondefinitions/compositiondefinitions.go:547-564 | From then on no number of rounds helps, unless the new version renders to the digest recorded for the old one. |
| `ReconcileFacts.UpdateMovesCompositions` | internal/controllers/compositiondefinitions/compositiondefinitions.go:571-578 | After an update that moves them no composition carries the old version, none is lost, no other is touched, and those moved differ in that label only. |
| `ReconcileFacts.CompositionsFollow` | internal/controllers/compositiondefinitions/compositiondefinitions.go:571-578 | Over any number of rounds the compositions of the recorded version move exactly if the first answer is "outdated" and that update does not panic. |
| `ReconcileFacts.SupersededGone` | internal/controllers/compositiondefinitions/compositiondefinitions.go:544-570 | From an outdated state nothing of the superseded bundle is left after any number of rounds, but what the new one contains too. |
| `Upgrade.FirstUpgrade` | internal/controllers/compositiondefinitions/compositiondefinitions.go:547-582 | A new definition is deployed, observed and moved to its next version: it is found outdated without a nil chart, and after any further rounds nothing of the old bundle is left but what the new one contains too, and every composition of the old version carries the new one. |
| `Upgrade.FirstUpgradeConverges` | internal/controllers/compositiondefinitions/compositiondefinitions.go:547-582 | If the two bundles share no object, two rounds end up to date and nothing of the old bundle is left. |
| `Upgrade.UpgradeCleans` | internal/controllers/compositiondefinitions/compositiondefinitions.go:547-582 | The same from any definition that is up to date with a chart recorded and credentials unchanged, whenever the new version is found outdated. |
| `Upgrade.RefreshTellsWhatToRemove` | internal/controllers/compositiondefinitions/helpers/status/status.go:17-65 | What a refresh under one version tells the next: the superseded bundle is exactly that of the version, with the credentials in its entry, or those of its chart if the entry is new; the chart is nil exactly if the version was known without one. |
| `Upgrade.GoneIsWhatWasDeployed` | internal/controllers/compositiondefinitions/compositiondefinitions.go:547-568 | So the keys removed are exactly those that were installed. |
| `Upgrade.OtherKindsStay` | internal/controllers/compositiondefinitions/compositiondefinitions.go:571-578 | If kind or group change, or the version does not, no round touches a composition. |
| `Upgrade.CompletedIsRecorded` | internal/controllers/compositiondefinitions/helpers/status/status.go:50-65 | A completed round records the group, version and kind that deletions and certificate updates look for. |
| `Upgrade.RecordedIsReached` | internal/controllers/certificates/certificates.go:173-197 | A CA bundle that stays the same reaches the CRD of every such definition. |
| `Upgrade.DeletesItsCrd` | internal/tools/deploy/deploy.go:604-612 | The CRD that the last deletion removes is the one that was applied. |
| `Failures.FailedDeployment` | internal/controllers/compositiondefinitions/compositiondefinitions.go:394-533 | A create or update that fails before its digest is recorded, from a state that does not diverge: what it leaves diverges exactly if the recorded digest is right already, the CRD lists the version and a secret object is still missing, or if it is outdated and the next update will go wrong, which takes a CRD that was missing or had neither the version nor the status. |
| `Failures.FailedBeforeSecretsSticks` | internal/controllers/compositiondefinitions/compositiondefinitions.go:357-373 | For instance for good: a create that stops right after the CRD, when the recorded digest is right and the secret role is missing. |
| `Failures.FailedRemoval` | internal/controllers/compositiondefinitions/compositiondefinitions.go:538-584 | An update that fails after that, with any part of the superseded bundle removed: what `Observe` answers next and exactly when the state diverges, read off the state before. |
| `Failures.FailedMoveIsForgotten` | internal/controllers/compositiondefinitions/compositiondefinitions.go:538-583 | If moving the compositions fails and the status with the new digest is kept, later rounds make up for it exactly unless the version is listed or the status current, the removal went unnoticed, and it took a secret object or left all intact; then the compositions stay as they are for ever. |
| `Failures.FailedRemovalIsForgotten` | internal/controllers/compositiondefinitions/compositiondefinitions.go:544-570 | What a removal that failed midway leaves of the old bundle is removed exactly if the definition is outdated afterwards, and otherwise stays for ever. |
| `Failures.FailingRuns` | internal/controllers/compositiondefinitions/compositiondefinitions.go:227-585 | Over every run of rounds that fail anywhere: after the failures any two rounds bring the definition up to date exactly if the state reached does not diverge; without a credentials secret, and with a chart recorded for the superseded version, none of them ever diverges. |
| `ReconcileFacts.ApartByName` | internal/tools/deploy/deploy.go:77-79 | With the repository's templates the superseded bundle is apart from the new one exactly when no listed clash of names applies. |
| `ReconcileFacts.TakesSecretsIff` | internal/controllers/compositiondefinitions/compositiondefinitions.go:547-568 | With these templates an update takes away secret objects it has just deployed exactly when they carry the names of the old secret or plain objects in the same namespace. |
| `ReconcileFacts.JsonSchemaNameClash` | internal/tools/deploy/deploy.go:779-803 | The names handed to the templates can clash for the two ConfigMaps. |
| `ReconcileFacts.SameNamesSameBundle` | internal/controllers/compositiondefinitions/compositiondefinitions.go:547-568 | If only group or kind changes, `Update` removes every object it has just deployed. |
| `ReconcileFacts.StrandedExample` | internal/controllers/compositiondefinitions/compositiondefinitions.go:547-568 | A state of the second diverging family, for any stored objects: from version v1-secret without credentials to v1 with credentials in the same namespace. |
| `Naming.KeysAre` | internal/tools/deploy/deploy.go:77-113 | The keys of a bundle are those of the templates it uses. |
| `Naming.KeysApartIff` | internal/tools/deploy/deploy.go:77-79 | Two bundles share no object exactly when none of the listed clashes applies: same version, a version that is the other with "-secret", or ConfigMap names that agree. |
| `Naming.SchemaClashes` | internal/tools/deploy/deploy.go:798-803 | The ConfigMap clash, for each of the two sets of templates in the repository. |
| `Naming.BundleKeysDistinct` | internal/tools/deploy/deploy.go:305-456 | Within one bundle these templates give all objects different keys. |
| `External.External.Observe` | internal/controllers/compositiondefinitions/compositiondefinitions.go:227-392 | A deleted definition whose kind does not resolve counts as gone; another failed lookup is an error. Otherwise, with any failures: an answer is the state machine's answer, state changes only by the status refresh; without failures it fails exactly where the state machine does. |
| `External.External.ObserveCrd` | internal/controllers/compositiondefinitions/compositiondefinitions.go:283-338 | The CRD part: absent, outdated, or the CRD itself when it lists the version with an equal status. |
| `External.External.ObserveBundle` | internal/controllers/compositiondefinitions/compositiondefinitions.go:342-380 | The bundle part: true exactly when dry run and read-back both give the recorded digest; fails exactly on a missing secret object. |
| `External.External.Create` | internal/controllers/compositiondefinitions/compositiondefinitions.go:394-467 | Success leaves exactly the state `CreateSpec` says; failure leaves a prefix of it and the status untouched; without failures it succeeds. |
| `External.External.Update` | internal/controllers/compositiondefinitions/compositiondefinitions.go:469-585 | Success leaves exactly the state `UpdateSpec` says; it ends in a nil dereference exactly on a nil chart; any other failure leaves a prefix of the deployment, or all of it, with part of the superseded bundle removed or some compositions moved, and the new digest in the status; without failures nothing else ends it. |
| `External.External.ApplyCRD` | internal/controllers/compositiondefinitions/compositiondefinitions.go:427-437 | Apply and certificate propagation together, and every partial state either may leave. |
| `External.External.UndeploySuperseded` | internal/controllers/compositiondefinitions/compositiondefinitions.go:544-570 | The loop over the recorded versions removes exactly the bundle of the version last applied, if its kind is the managed one. |
| `External.External.FinishUpdate` | internal/controllers/compositiondefinitions/compositiondefinitions.go:544-584 | What `Update` adds to `Create`, including every state left when it fails or panics. |
| `External.External.MoveCompositions` | internal/controllers/compositiondefinitions/compositiondefinitions.go:571-578 | Compositions are moved exactly when nothing but the version has changed; on failure some of them are. |
| `External.External.RunOnce` | internal/controllers/compositiondefinitions/compositiondefinitions.go:227-585 | When no request fails, observing and then creating or updating is one round of the state machine. |
| `External.External.RunMany` | internal/controllers/compositiondefinitions/compositiondefinitions.go:227-585 | Repeated rounds of these methods, with rotations in between, are the rounds of the state machine; after two of them a definition that does not diverge is up to date; CRDs stay converted by the configured service. |
| `External.External.TryOnce` | internal/controllers/compositiondefinitions/compositiondefinitions.go:227-585 | With any failures, and a status that a failed update may lose, a call is a round of the state machine cut off somewhere. |
| `External.External.TryMany` | internal/controllers/compositiondefinitions/compositiondefinitions.go:227-585 | Repeated calls with any failures are a run of such rounds; without a credentials secret what they reach does not diverge. |
| `CrdClient.ApplyOrUpdateCRD` | internal/tools/crd/crd.go:144-251 | For every failure: the CRD is as found or exactly what the decision says; without failures it errs exactly when the decision does. |
| `CrdClient.Lookup` | internal/tools/crd/crd.go:97-119 | True exactly when the CRD exists and lists the version. |
| `CrdClient.Uninstall` | internal/tools/crd/crd.go:44-77 | The CRD is gone on success; nothing else changes. |
| `CrdClient.StatusCheckIsExact` | internal/tools/crd/generation/generation.go:150-184 | In a good CRD comparing the first status stands for comparing all real versions, both ways. |
| `CrdClient.StatusRewriteIsGood` | internal/tools/crd/generation/generation.go:114-126 | Rewriting the status keeps names and goodness and makes the next comparison succeed. |
| `CrdClient.ExtendedIsGood` | internal/tools/crd/generation/generation.go:49-112 | Appending a version, with the hidden one when it is the second, keeps exactly one storage version, distinct names and served real versions. |
| `CrdClient.ApplyKeepsGood` | internal/tools/crd/crd.go:184-250 | A written CRD is good exactly unless it was found under the plural with another kind and that single version; names are only appended. |
| `CrdClient.ClearsStorageExample` | internal/tools/crd/crd.go:210-235 | A concrete such CRD ends up without any storage version. |
| `CrdClient.RunKeepsGood` | internal/tools/crd/crd.go:144-251 | Over every run of applies, rotations and deletions, with every failure, all CRDs stay good. |
| `CrdClient.RunGrowsVersions` | internal/tools/crd/generation/generation.go:49-112 | Over every run without its deletion the old version list of a CRD is a prefix of the new one. |
| `CrdClient.RotatedIsGood` | internal/tools/crd/generation/generation.go:24-37 | A bundle rotation changes neither versions nor goodness. |
| `CrdFacts.RunStaysWired` | internal/tools/crd/crd.go:253-275 | Over every run, also after status rewrites and rotations, each CRD with several versions is converted by the service, port and path that the requests name, with the review versions of the source. |
| `CrdFacts.RoundsStayWired` | internal/tools/crd/crd.go:253-275 | The reconcile loop keeps that. |
| `CrdFacts.AppendNeedsService` | internal/tools/crd/crd.go:218-232 | A version that is not listed, under an equal status, is written exactly with a bundle and a service to convert to, and otherwise the call fails. |
| `CrdFacts.AppendTrusts` | internal/tools/crd/crd.go:253-275 | A call that appends a version hands over the bundle it was given. |
| `CrdFacts.RunKeepsSchemas` | internal/tools/crd/crd.go:184-235 | Whatever is generated later: until the CRD is deleted no call changes the name, place or any property of a listed version but its status. |
| `CrdFacts.RunComesFrom` | internal/tools/crd/crd.go:144-251 | Every version in the cluster was there before, was generated under that key with these properties, or is the hidden one. |
| `CrdFacts.RunStoresAll` | internal/tools/crd/generation/generation.go:64-101 | Over every run what a CRD with several versions stores keeps unknown fields of the spec. |
| `CrdFacts.StorageStatus` | internal/tools/crd/generation/generation.go:114-126 | Unknown fields of the status are kept when the hidden version is appended, until the next status rewrite replaces it there too. |
| `CrdClient.OverlappingAppendIsLost` | internal/tools/kube/client.go:27-51 | The growth needs calls that do not overlap: after a second call that decided on an older read, the version the first one appended is listed exactly if the second wrote nothing. Both an append and a status rewrite lose it. |
| `Generation.Crd.AppendVersion` | internal/tools/crd/generation/generation.go:49-112 | The in-place loops equal the list function whose properties are proved. |
| `Generation.Crd.SetServedStorage` | internal/tools/crd/generation/generation.go:39-46 | Exactly the versions of that name get the flags. |
| `Generation.Crd.UpdateStatus` | internal/tools/crd/generation/generation.go:114-126 | Every version with a schema gets the status; it fails exactly on a nil schema of the new version, and panics exactly at the first version whose property map is nil, the versions before it edited. |
| `Generation.Crd.UpdateCABundle` | internal/tools/crd/generation/generation.go:24-37 | It fails exactly on an incomplete conversion and otherwise changes only the bundle. |
| `Generation.Crd.GVKExists` | internal/tools/crd/generation/generation.go:186-201 | Found exactly when group, kind and a version name match. |
| `Generation.StatusEqual` | internal/tools/crd/generation/generation.go:150-184 | Compares the digests of the first status of each side; it fails exactly when one side has none. |
| `Status.CompositionDefinition.UpdateVersionInfo` | internal/controllers/compositiondefinitions/helpers/status/status.go:17-48 | The nested loops equal the list function, of which `RefreshRecordsAll` and `RefreshTellsWhatToRemove` say what it records. |
| `Status.CompositionDefinition.RefreshCompositionDefinitionStatus` | internal/controllers/compositiondefinitions/helpers/status/status.go:50-65 | The whole new status. |
| `Status.RefreshRecordsAll` | internal/controllers/compositiondefinitions/helpers/status/status.go:17-48 | Entries keep place, name and chart, names stay unique, and afterwards every CRD version is recorded with its flags. |
| `Status.RefreshIdempotent` | internal/controllers/compositiondefinitions/helpers/status/status.go:50-65 | Refreshing again from the same CRD changes nothing. |
| `Deploy.Deploy` | internal/tools/deploy/deploy.go:305-488 | Success: the digest of the answers' stream, and exactly the planned objects installed and the workload restarted; failure: a prefix; a dry run changes nothing; without failures it succeeds exactly when both waits do. |
| `Deploy.InstallBundle` | internal/tools/deploy/deploy.go:324-456 | The objects in the planned order, each hashed as the server answered it. |
| `Deploy.RestartWhenReady` | internal/tools/deploy/deploy.go:458-488 | The restart annotation is written only once the workload is ready, and nothing else changes. |
| `Deploy.Lookup` | internal/tools/deploy/deploy.go:618-777 | Success: the digest of what is stored; it changes nothing; without failures it fails exactly when a secret object is missing. |
| `Deploy.Undeploy` | internal/tools/deploy/deploy.go:490-614 | Success removes exactly the listed keys, and the CRD unless skipped; failure removes a prefix of them, and never the CRD before all of them. |
| `DeployFacts.DigestAgreement` | internal/tools/deploy/deploy.go:305-488 | After a successful deployment, dry run and read-back give the recorded digest, restart annotation or not. |
| `DeployFacts.DryHashesTheSame` | internal/tools/deploy/deploy.go:313-315 | A dry run and a real deployment from one store hash the same values. |
| `DeployFacts.DeployResumes` | internal/tools/deploy/deploy.go:305-488 | Wherever a deployment stopped, running it again installs exactly what one undisturbed run would have. |
| `DeployFacts.TeardownKeys` | internal/tools/deploy/deploy.go:490-614 | The keys removed are exactly the keys installed. |
| `DeployFacts.DeployThenUndeploy` | internal/tools/deploy/deploy.go:490-614 | Deploying and undeploying leaves the store as it was, less those keys. |
| `DeployFacts.UndeployResumes` | internal/tools/deploy/deploy.go:490-614 | Any beginning of an undeployment followed by a whole one equals a whole one. |
| `DeployFacts.DriftIsSeen` | internal/tools/deploy/deploy.go:618-777 | Two stores give the same hashed text exactly when they agree on presence and content of every object, apart from the data of the values-schema ConfigMap and the restart annotation of the Deployment. |
| `BundleContents.BindingsNameTheAccount` | internal/tools/deploy/deploy.go:81-113 | After a deployment each of the three bindings names the service account that the same deployment installed, by name and namespace, for templates that read these values. |
| `BundleContents.ControllerRunsAsAccount` | internal/tools/deploy/deploy.go:412-419 | So does the controller's workload. |
| `BundleContents.ControllerToldAccount` | internal/tools/deploy/deploy.go:395-398 | And its ConfigMap. |
| `BundleContents.SecretRoleNamesSecret` | internal/tools/deploy/deploy.go:325-331 | The secret role is for the secret of the credentials, in its namespace. |
| `BundleContents.SchemaStored` | internal/tools/deploy/deploy.go:378-381 | The values schema is stored. |
| `BundleContents.ControllerWatches` | internal/tools/deploy/deploy.go:412-419 | The controller is started for the definition's group, version and resource. |
| `BundleContents.ServiceSelectsDeployment` | internal/tools/deploy/deploy.go:437-456 | The service selects the pods of the workload. |
| `BundleContents.RestartRecorded` | internal/tools/deploy/deploy.go:458-488 | The workload carries the time of the restart and is otherwise as the server answered. |
| `Bundle.ResourceNamerInjective` | internal/tools/deploy/deploy.go:77-79 | Names tell resource and version apart when resources have no dash. |
| `Hash.DigestOfStream` | internal/tools/hash/hasher.go:16-27 | Only the concatenated text counts, not its division into values or calls. |
| `Hash.ObjectHash.SumHash` | internal/tools/hash/hasher.go:16-27 | Cumulative over calls. |
| `Hash.DigestConcat` | internal/tools/hash/hasher.go:16-34 | The digest after two calls is that of one call with both arguments. |
| `HashFacts.OneByteSeen` | internal/tools/hash/hasher.go:16-27 | Wherever a single byte of the text changes, so does the digest: a step of FNV-1 loses neither the running digest nor the byte. |
| `HashFacts.Utf8Injective` | internal/tools/hash/hasher.go:16-27 | Texts with the same bytes are the same (RFC 3629, section 3). |
| `HashFacts.KnownDigest` | internal/tools/hash/hasher.go:36-38 | The published FNV-1 digest of one letter. |
| `Json.EncodePrefixFree` | internal/tools/hash/hasher.go:18-25 | No encoding of a value that is not a number is a proper prefix of another (RFC 8259, sections 3, 4, 5 and 7). |
| `Json.StreamDecodable` | internal/tools/hash/hasher.go:16-27 | Streams of such values are equal exactly when the value sequences are, although nothing separates them. |
| `Json.NumbersAmbiguous` | internal/tools/hash/hasher.go:18-25 | With bare numbers they would not be. |
| `Getters.Compositions.UpdateCompositionsVersion` | internal/controllers/compositiondefinitions/helpers/getters/getters.go:59-79 | Under any interference: on success each listed composition was at some moment missing or labelled, and every write changed only the label of the version just read; without other writers exactly the listed ones are written, once each. |
| `Getters.RelabelLater` | internal/controllers/compositiondefinitions/helpers/getters/getters.go:101-153 | One composition with all retries: success means it was seen missing or labelled; all its writes set the version label and change no other label and nothing else. |
| `Getters.RelabelQuiet` | internal/controllers/compositiondefinitions/helpers/getters/getters.go:101-153 | Without another writer at most one effective write, ambiguous failures included. |
| `Progress.RelabelProgress` | internal/controllers/compositiondefinitions/helpers/getters/getters.go:101-153 | With fewer than five failed attempts, conflicts and lost answers included, and whoever else writes, the composition ends up labelled or gone. |
| `Progress.RelabelGivesUp` | internal/controllers/compositiondefinitions/helpers/getters/getters.go:155-200 | Five failed reads are too many; one is, if it is refused for good or the context is cancelled. |
| `Getters.ListLater` | internal/controllers/compositiondefinitions/helpers/getters/getters.go:81-99 | The list is what some moment of the store held. |
| `Getters.PendingShrinks` | internal/controllers/compositiondefinitions/helpers/getters/getters.go:59-79 | Relabelled compositions leave the selector, so a rerun has exactly the rest to do and ends where one run would. |
| `Getters.Compositions.GetCompositionsWithRetry` | internal/controllers/compositiondefinitions/helpers/getters/getters.go:81-99 | The list with its retries. |
| `Kube.AttemptReplacesWhatItRead` | internal/tools/kube/client.go:27-51 | An attempt makes at most one effective write, over exactly the object it read; success means it has written unless dry; once the object was read, no later attempt creates it anew. |
| `Kube.ApplyLater` | internal/tools/kube/client.go:21-53 | All retries under any interference: every effective write replaced what the store held at that moment by what the server makes of the value there; success means the answer is such a value, written last unless dry; a dry run writes nothing. |
| `Kube.ApplyQuiet` | internal/tools/kube/client.go:21-53 | With all retries and lost answers an apply is one write or none. |
| `Kube.UninstallQuiet` | internal/tools/kube/client.go:55-92 | With all retries an uninstall removes the key or, on failure, possibly nothing. |
| `Progress.ApplyProgress` | internal/tools/kube/client.go:21-53 | With fewer than ten failed attempts, whatever fails but the context, and whoever else writes without deleting, `Apply` succeeds. |
| `Progress.ApplyGivesUp` | internal/tools/kube/client.go:21-53 | Ten failed reads make it fail without a write. |
| `Progress.ApplyStopsWhenCanceled` | internal/tools/kube/client.go:98-108 | A cancelled context ends it at once. |
| `Progress.UninstallProgress` | internal/tools/kube/client.go:55-92 | With fewer than ten failed attempts, whoever else writes, `Uninstall` succeeds. |
| `Kube.Client.Apply` | internal/tools/kube/client.go:21-53 | The same for the client method, for every script of failures. |
| `Kube.Client.Uninstall` | internal/tools/kube/client.go:55-92 | Likewise; a missing object is a success. |
| `Retry.Do` | internal/tools/retry/retry.go:19-57 | The counting loop equals the recursive run, world, answer, calls and waits, of which `DoStops` says when it stops. |
| `Retry.DoStops` | internal/tools/retry/retry.go:38-54 | Exactly when a run stops: with the first answer that is no retryable error, with the first wait that is refused, or with the last attempt asked for; world and answer are those of that call, and before that there is always another one. |
| `Retry.DoIsBounded` | internal/tools/retry/retry.go:19-57 | At least one and at most max(1, Attempts) calls, the line after the loop is unreachable, wait number i is `Delay(i)`, and the total is bounded. |
| `Retry.DelayBounded` | internal/tools/retry/retry.go:60-74 | Whatever the shift does, a positive maximum is never exceeded. |
| `Retry.DelayIsIdeal` | internal/tools/retry/retry.go:60-74 | In 63 bits, the delay is the smaller of initial times a power of two and a positive maximum. |
| `Retry.DelayMonotone` | internal/tools/retry/retry.go:60-74 | In 63 bits delays never decrease. |
| `Retry.DelaysGrowIff` | internal/tools/retry/retry.go:60-74 | Up to any attempt no delay is shorter than an earlier one exactly if that attempt's shift fits in 63 bits; the first that does not fit is negative. |
| `Retry.DelayOverflows` | internal/tools/retry/retry.go:60-74 | For instance attempt 64 from one nanosecond. |
| `Retry.DefaultBackoff` | internal/controllers/compositiondefinitions/helpers/getters/getters.go:27-31 | Five attempts from 250 ms capped at 2 s wait at most 3.75 s, and exactly that when all are needed. |
| `Retry.DoInvariant` | internal/tools/retry/retry.go:19-57 | The induction principle by which every retried operation is proved. |
| `Defaults.ApplyDefaultsToMap` | internal/controllers/compositiondefinitions/webhooks/utils/defaults/defaults.go:94-167 | For every order in which the map is ranged over: the same recursive merge, and failure for exactly the same inputs; a failing call leaves each field as it was or merged, at every level. |
| `Defaults.ApplyDefault` | internal/controllers/compositiondefinitions/webhooks/utils/defaults/defaults.go:96-163 | The body of the loop for one field. |
| `Defaults.PopulateDefaultsFromCRD` | internal/controllers/compositiondefinitions/webhooks/utils/defaults/defaults.go:15-92 | Succeeds exactly when the version has a schema, the spec is a map and no default needed is malformed; only the spec changes. |
| `DefaultsFacts.PassPreserves` | internal/controllers/compositiondefinitions/webhooks/utils/defaults/defaults.go:98-113 | No value already set at any path is changed or removed. |
| `DefaultsFacts.PartPreserves` | internal/controllers/compositiondefinitions/webhooks/utils/defaults/defaults.go:98-113 | Nor is it by a call that fails. |
| `DefaultsFacts.PassResolves` | internal/controllers/compositiondefinitions/webhooks/utils/defaults/defaults.go:94-163 | What every path holds after a pass, read off the schema; synthesised objects are never empty. |
| `DefaultsFill.PassFills` | internal/controllers/compositiondefinitions/webhooks/utils/defaults/defaults.go:94-163 | What a pass puts at every path it finds absent: the default itself, without its fraction in an integer field; as many items with the item default, likewise, as an array must have; an object that has members; otherwise nothing. |
| `DefaultsFill.PopulatesItsVersion` | internal/controllers/compositiondefinitions/webhooks/utils/defaults/defaults.go:32-92 | With distinct version names a resource gets the spec defaults of the version it names and of no other; a missing or null spec counts as empty; without a slash in the API version it is refused. |
| `DefaultsFacts.PassesSettle` | internal/controllers/compositiondefinitions/webhooks/utils/defaults/defaults.go:94-167 | As many passes as the schema has levels reach a fixpoint. |
| `DefaultsFacts.OnePassIff` | internal/controllers/compositiondefinitions/webhooks/utils/defaults/defaults.go:115-141 | One pass is idempotent on all values exactly when every object default is already complete under its own schema. |
| `DefaultsFacts.RepeatedDefaulting` | internal/controllers/compositiondefinitions/webhooks/utils/defaults/defaults.go:94-167 | If all defaults parse no pass fails, and the fixpoint is reached. |
| `Deletion.GetCompositionDefinitions` | internal/controllers/compositiondefinitions/helpers/getters/getters.go:202-226 | Exactly the definitions whose status records the group and kind, with their number. |
| `Deletion.GetCompositionDefinitionsWithVersion` | internal/controllers/compositiondefinitions/helpers/getters/getters.go:229-246 | The same with the version. |
| `Deletion.CrdSpared` | internal/controllers/compositiondefinitions/compositiondefinitions.go:652-666 | The CRD is spared whenever another definition records its kind, exactly unless the deleted one does not record it and only one other does. |
| `Deletion.CompositionsSpared` | internal/controllers/compositiondefinitions/compositiondefinitions.go:618-650 | Compositions are deleted only by the last definition that records the version, with the same exception. |
| `Deletion.CrdAfterCompositions` | internal/controllers/compositiondefinitions/compositiondefinitions.go:618-666 | A definition that records its version removes the CRD only after deleting the compositions of that version. |
| `Deletion.UnrecordedTakesTheCrd` | internal/controllers/compositiondefinitions/compositiondefinitions.go:618-666 | A definition deleted before it has recorded anything takes CRD and compositions from the one that uses them. |
| `Deletion.RunServes` | internal/controllers/compositiondefinitions/compositiondefinitions.go:587-696 | Over every run of recorded reconciles and deletions, what any definition records has its CRD, and no composition is lost, be it deleted or removed with its CRD, while another definition records its version. |
| `Deletion.StepCleans` | internal/controllers/compositiondefinitions/compositiondefinitions.go:587-696 | The last definition of a version leaves no composition of it, and the last of a kind neither the CRD nor any composition. |
| `Deletion.DeleteStep` | internal/controllers/compositiondefinitions/compositiondefinitions.go:587-696 | A successful `Delete`, with the objects of a removed CRD gone, is the deletion step of such a run, in definitions, CRDs and compositions. |
| `Deletion.OtherBundleSpared` | internal/controllers/compositiondefinitions/compositiondefinitions.go:668-690 | A deletion leaves another definition's bundle whole exactly when no listed clash of names applies; one of the same version loses at least its cluster role, whatever its namespace. |
| `Deletion.TwinDeletionSticks` | internal/controllers/compositiondefinitions/compositiondefinitions.go:668-690 | Deleting a twin with secrets in the same namespace leaves the other one stuck exactly when a dry run does not miss what is gone. |
| `Deletion.DeleteCompositions` | internal/controllers/compositiondefinitions/compositiondefinitions.go:626-650 | Only compositions of the version are removed, and success means none is left. |
| `Deletion.Delete` | internal/controllers/compositiondefinitions/compositiondefinitions.go:587-696 | Bundle and CRD are not touched before the list of compositions is empty when this is the last definition of its version; success removes exactly the bundle, and the CRD exactly for the last of its kind. |
| `CertFiles.UpdateCerts` | internal/tools/certs/certs.go:159-221 | At every step of every failure each served file is wholly old or wholly new; before the first rename both are old. |
| `CertLock.ConsistentWhenFree` | internal/controllers/certificates/certificates.go:129-154 | In every interleaving, certificate, key and bundle agree when the lock is free exactly unless a rotation was cut off after its first rename. |
| `CertLock.SuccessfulCallersAgree` | internal/controllers/certificates/certificates.go:201-222 | If no caller fails late they always agree. |
| `CertLock.LateFailureLasts` | internal/controllers/certificates/certificates.go:137-154 | A failed second rename is not repaired by later callers. |
| `CertManager.Manager.PropagateCABundle` | internal/controllers/certificates/certificates.go:357-402 | The imperative attempt is the modelled one. |
| `CertManager.Manager.PropagateCABundleWithRetry` | internal/controllers/certificates/certificates.go:253-289 | Success leaves the bundle in the CRD, if it has several versions, and in the webhook configuration; failure leaves each old or new; a malformed bundle is refused before any write; no failure is that of a malformed CRD. |
| `CertManager.Manager.ManageCertificates` | internal/controllers/certificates/certificates.go:129-165 | The new bundle is the one propagated to the CRD and the webhook configuration; each holds old or new after a failure; nothing is written after a failed rotation. |
| `CertManager.Manager.UpdateExistingResources` | internal/controllers/certificates/certificates.go:167-199 | The CRDs are exactly those after one rotation per recorded and resolved definition, in order, also when the bundle changes in between, and so is the webhook configuration; `UpdateCABundle` never fails. |
| `CertManager.LoopReaches` | internal/controllers/certificates/certificates.go:173-197 | If the bundle stays the same, every CRD with several versions that a recorded definition resolves to ends up with it. |
| `CertManager.UnrecordedSkipped` | internal/controllers/certificates/certificates.go:173-197 | Definitions that have recorded nothing are passed over. |
| `CertManager.HookReaches` | internal/controllers/certificates/certificates.go:385-399 | If the bundle stays the same, the webhook configuration ends up as the server stores what is rendered for it, and no other one changes. |
| `CertManager.BundleReaches` | internal/controllers/certificates/certificates.go:372-383 | No CRD comes, goes or changes its versions in the loop. |
| `CertManager.GoodIsSound` | internal/tools/crd/generation/generation.go:24-37 | In every reachable state a CRD with several versions has a complete conversion. |
| `CertPropagation.ValidateCABundleFormat` | internal/controllers/certificates/certificates.go:332-355 | Accepts exactly bundles with both markers and some BEGIN before every END. |
| `CertPropagation.PropagateQuiet` | internal/controllers/certificates/certificates.go:257-289 | Propagation with all its retries, starting from any half-done attempt. |
| `Progress.PropagateProgress` | internal/controllers/certificates/certificates.go:257-289 | With fewer than five failed reads, a CRD that is missing for a while included, the bundle is propagated. |
| `Progress.PropagateStops` | internal/controllers/certificates/certificates.go:291-329 | A read refused for good, or a cancelled context, ends it at once. |
| `Deadline.DeadlineIff` | internal/tools/certs/certs.go:126-157 | With successful checks at most a gap apart and any failures before a new request exists, the served certificate is valid at every instant of every run exactly when margin + gap + issuing time is at most the lifetime. |
| `Deadline.TolerationIff` | internal/tools/certs/certs.go:126-157 | With up to n failures after a new request was created, exactly when (n + 1) times margin plus gap, plus the issuing time, is. |
| `Deadline.LateFailuresExpire` | internal/tools/certs/certs.go:136-147 | So no configuration tolerates any number of them: later checks look at the new request, not at the served certificate. |
| `Deadline.BoundExceeded` | internal/controllers/certificates/reconciler.go:41-60 | The run in which the certificate expires, for every number of such failures, when the bound is exceeded. |
| `Deadline.StartupCheckAdmitsExpiry` | main.go:91-92 | The check at startup admits configurations that expire. |
| `Tgzfs.New` | internal/tools/tgzfs/fs.go:22-56 | The index holds exactly the header paths and their ancestors, each with its header's data, and agrees with the child lists and the root list. |
| `Tgzfs.TarFs.Append` | internal/tools/tgzfs/fs.go:58-79 | Indexing one node, making up missing ancestors; it terminates, and keeps every node that was there. |
| `Tgzfs.EnterList` | internal/tools/tgzfs/fs.go:63-78 | Entering a pending node in its parent's list keeps the agreement, each child once. |
| `Tgzfs.RepeatedPathBreaks` | internal/tools/tgzfs/fs.go:58-79 | A second header for an indexed path breaks the agreement. |
| `TgzfsAbsolute.AppendAbsolute` | internal/tools/tgzfs/fs.go:58-79 | An absolute name: it terminates, "/" becomes its own child, and neither the root list nor any list of a relative path changes, so no walk from the root finds the entry. |
| `TgzfsReads.Sub` | internal/tools/tgzfs/fs.go:180-203 | Index, root entry and errors of a subtree; its index and lists agree again. |
| `TgzfsReads.SubLooksUp` | internal/tools/tgzfs/fs.go:195-200 | Looking p up in the subtree of d is looking d/p up in the whole. |
| `TgzfsReads.SubOfSub` | internal/tools/tgzfs/fs.go:180-203 | The subtree b of the subtree a is the subtree a/b, in what it holds and in how it fails. |
| `TgzfsReads.SubAgrees` | internal/tools/tgzfs/fs.go:193-200 | The agreement carries over to a subtree, whose root list is the list of its directory. |
| `TgzfsReads.File.ReadDir` | internal/tools/tgzfs/file.go:58-81 | One page and the new position. |
| `TgzfsReads.RootFile.ReadDir` | internal/tools/tgzfs/file.go:104-125 | The same for the root. |
| `TgzfsReads.PagesConcatenate` | internal/tools/tgzfs/file.go:58-81 | Pages of any sizes put together are the listing between the first and the last position. |
| `TgzfsReads.PagesReachEnd` | internal/tools/tgzfs/file.go:58-81 | A call for the rest, or enough pages, reach the end. |
| `TgzfsReads.ResortedIff` | internal/tools/tgzfs/file.go:58-81 | When a directory is sorted between pages of any sizes, they return every entry up to the final position once exactly if those read before are the first ones of the new order. |
| `TgzfsReads.ResortedBetweenPages` | internal/tools/tgzfs/file.go:58-81 | For instance one entry is repeated and another skipped. |
| `TgzfsReads.PageOverflows` | internal/tools/tgzfs/file.go:72-75 | Sizes near the largest integer overflow exactly when reading has begun. |
| `TgzfsListing.ReadDir` | internal/tools/tgzfs/fs.go:101-120 | A listing holds exactly the entries of the directory, once each, in increasing order of names; every view that shares the tree still agrees; the root's list is returned as it is. |
| `TgzfsListing.SortByName` | internal/tools/tgzfs/fs.go:117-117 | The in-place sort permutes and sorts. |
| `TgzfsListing.LessIsLexicographic` | internal/tools/tgzfs/fs.go:117-117 | The order of names is the lexicographic one. |

## Left out

- Generation.Crd.AppendVersion: `toadd` with several versions is modelled, but the lemmas on goodness are about generated CRDs, which have one.
- CrdClient.RunKeepsGood: assumes that one plural stands for one kind; `ApplyKeepsGood` says exactly what happens otherwise.
- Deploy.Deploy: the failure of a template is modelled as its absence, and a wait for readiness as an input that says whether it succeeds.
- DeployFacts.DigestAgreement: assumes that a restart annotation in the cluster does not change what the server makes of a write.
- Convergence.Converges: every request succeeds, and a panicking update is taken to lose the status held in memory; `Failures` treats rounds in which this is not so.
- External.External.Observe: the chart and the generated CRD are inputs; a resource found for the chart's kind is taken to be the generated plural.
- External.External.RunOnce: the runtime that calls the three methods and stores the status is not part of the repository.
- Defaults.ApplyDefaultsToMap: conversion of floats beyond 64 bits is not modelled.
- BundleContents.BindingsNameTheAccount: where a template puts a value is a hypothesis; the texts of the templates are not modelled.
- Kube.Client.Apply: an API server is taken to refuse creating an object that carries a resource version.
- Deletion.RunServes: assumes that a deleted definition records its own kind and version; `CrdSpared` and `CompositionsSpared` say exactly what happens otherwise.
- Deletion.Delete: the list of definitions is read once; definitions deleted at the same time by two workers are not modelled.
- Tgzfs.New: the agreement is about clean relative names; an absolute one breaks it, in the way `AppendAbsolute` says.
- TgzfsReads.File.ReadDir: a page is a value; that the slice returned shares its array with the directory is not modelled.
- TgzfsListing.SortByName: the library sort is replaced by an insertion sort with the same contract.
- Getters.Compositions.GetCompositions: labels are modelled, the rest of a composition is one opaque text.
- Chart download, gzip, tar and YAML decoding, CRD generation, pluralising and template rendering are inputs with the hypotheses stated.
- What a template names an object is taken to depend on resource, version and the given namespace and name only, not on the other values, so that installing and removing render the same names.
- The digest is a number; its hexadecimal text, and collisions of FNV-64, are not modelled. Statements are about streams, or about digests of equal streams.
- The retry loops around listing CRDs and charts have the shape of those in getters.go and are not repeated.
- Conversion and mutation webhooks, readiness checks, events, logging, telemetry and flags.
