# A Dafny model of the image-based install operator

The operator installs a cluster on one bare metal host. It builds a configuration image for an
`ImageClusterInstall`, attaches it to the host as a `DataImage`, boots the host from it, and watches the
new cluster until it is installed. Two controllers, an admission webhook, users, the bare metal operator,
pod restarts and backup restores all act on the same stored objects. This project models that system in
Dafny and proves what holds in every run of it.

## How the model is built

* **World.** `Hub.World` holds the clock, the installation, hosts, data images, cluster deployments,
  secrets, the working directories on the pod's disk, and every UID handed out so far.
* **Calls.** One call of a controller is one atomic step. It is a function of the world and of a fault
  record that says which read, write, file operation or lock attempt inside the call fails
  (`MainReconciler.MainReconcile`, `Monitor.MonitorReconcile`). A write is done, is lost, or is done although
  the caller sees an error. A crash in the middle of a call is the same call with everything after the crash
  failing.
* **Code.** Where the source changes things step by step, the project has the code as well: classes with
  fields and methods with loops, each proved equal to the function that specifies it. `MainSteps.Reconcile`
  and `MonitorSteps.WatchInstallation` are the two controllers; they call the condition list, the secret
  store, the working directory, the network check, the infra ID generator and the cluster status check as code.
* **Runs.** `System` adds the surroundings: time, hosts and images changed by others, users who create,
  edit (through the webhook) and delete the installation, lost working directories, and restores. The
  theorems range over all sequences of such events.

| file | content |
|---|---|
| Conditions | the condition list and its refinement of a table |
| Spoke | what the installed cluster reports |
| MachineNetworks, InfraId, ImagePaths, Credentials, ImageBuild | network check, infra ID, paths and URLs, identity secrets, image build |
| Hub, DataImages, MainReconciler, Monitor, Webhook | the world, the two controllers and the webhook as functions |
| MainSteps, MonitorSteps | the two controllers as code |
| MainEffects, MonitorEffects | what one call can and cannot change |
| System, Safety, Guarantees | events and runs, the invariant, safety of every run |
| Verdicts, MonitorOutcomes, WindDown | what each call says, does and asks for, in closed form on the state before it, and exactly when it fails |
| Errors | a call that ends without an error is the call without failures |
| BuildSafety, Identity, Discipline | the cluster identity: the exact guard of one build and of one call, the law over every guarded run, and a discipline that meets the guard |
| Frozen | what the webhook admits, the frozen specification, the way to the kubeconfig |
| HostCare, Admission, Progress, Reports, Restore | handling of hosts, the controllers' own patches, reaching the start, honest reports, restores |

Assumptions about the surroundings, all of them in `System.Enabled` or the fault records: calls do not interleave; deleting a data image either removes it or marks it as terminating; only
this operator creates data images; users neither edit the identity secrets nor the cluster metadata; a UID
is never reused; a successful installer run leaves all four files, keeps the auth files and the manifest it
finds, and writes the others from one new generation; a failed run may have written any of them.

## What turned out not to hold

Four promises hold only under a condition. Each has its exact condition and an input on which it fails.

* *A complete identity is of one generation and never changes.* In every state whose stored identities are sound, a
  call of the main controller keeps all of them, whatever fails in it, if and only if a guard on the state before the
  call holds (`Identity.IdentitySurvivesIff`; given how the removal of the working directory ends,
  `Identity.CallIsSafeIff`; for one build, `BuildSafety.BuildKeepsIdentityIff`). A call that does not reach the image,
  such as one on a deleted or completed installation, stores nothing and is always guarded
  (`Identity.OnlyBuildsStore`). For a call that reaches it the guard has three cases.
  An image that is already on disk is stored for whatever deployment is named at that moment
  (controllers/imageclusterinstall_controller.go:936-939), so it must carry the identity stored for that deployment.
  Without an image, a stored identity is rebuilt under the IDs of the metadata
  (internal/installer/reinstall.go:21-54), so these must be its own, unless base domain or cluster name rule the
  rebuild out. And a new identity must not start from parts of an old one. The law over runs needs nothing but this
  guard: edits, restores and failed removals are free. `Discipline.EditedReferenceLosesIdentity` is a run of two
  steps that breaks it: an edit of the deployment reference and one undisturbed call. Deleting the installation after
  the same edit is guarded (`Discipline.DeletionAfterEditIsGuarded`).
* *A new identity and its image are of one generation.* The error of removing the previous working directory is
  ignored (controllers/imageclusterinstall_controller.go:942). `BuildSafety.RemainsAreHarmlessIff` says exactly which
  remains no installer run, successful or failed at any point, can turn into a mixture.
  `BuildSafety.SurvivingKubeconfigIsMixedIn` and `BuildSafety.SurvivingImageIsServed` are inputs on which a
  kubeconfig is mixed in, and on which an old image is kept beside a new identity.
* *A lost report is repaired.* The repair of RequirementsMet looks for False only
  (controllers/imageclusterinstall_controller.go:172-179). `Reports.RepairWorksIff` gives the exact condition,
  and `Progress.LosingTheFirstReport` the states and failures after which Unknown stays for as long as the image is
  on disk. A repair that is itself lost is not made up for by the report at the end of the same call
  (`Verdicts.LostRepairIsNotRepeated`).
* *Image URLs read back.* `ImagePaths.RoundTripIff` gives the exact condition on the UID, `ImagePaths.SlashIsMisread`
  a UID that is misread; Kubernetes names satisfy the condition.

One more difference between code and intent is kept as it is in the code: a metadata object without a password
reference makes the comparison in `setClusterInstallMetadata` fail with a nil dereference
(controllers/imageclusterinstall_controller.go:1163). The model ends that call with an error after the deferred
condition update.

## Model

| member | source | states |
|---|---|---|
| `Guarantees.EveryStepIsSound` | controllers/imageclusterinstall_controller.go:133-275 | For every step of every run from nothing, with any failures: the start is recorded once, by the main controller, at the current time, only when all requirements are in place; Failed is set only past the timeout and left only for completion or a terminating image; completion is recorded only for an installed cluster whose image is gone and then the status stands still; after a deletion request nothing is created, and the finalizer goes only when nothing is left |
| `Guarantees.StepIsSound` | controllers/imageclusterinstall_monitor.go:64-210 | The same for any single step from any state that satisfies the invariant |
| `Safety.RunKeepsInv` | controllers/imageclusterinstall_controller.go:143-275 | Every run without restores keeps: boot time and host reference are set together, the host reference equals the specified host, there is one condition per type and the conditions are legal, RequirementsMet=True implies a start, and a completed installation has no data image |
| `Safety.StepKeepsInv` | controllers/imageclusterinstall_monitor.go:86-210 | One step of either controller, of users or of the surroundings keeps that invariant |
| `Safety.RunKeepsSane` | controllers/imageclusterinstall_controller.go:143-275 | Every run keeps all of the invariant but the clause on data images of completed installations, restores included, as long as a restored status is one the invariant allows |
| `Safety.StepKeepsSane` | controllers/imageclusterinstall_monitor.go:86-210 | One step keeps that part of the invariant, and the whole invariant unless it is a restore |
| `Safety.MainKeepsInv` | controllers/imageclusterinstall_controller.go:133-275 | One call of the main controller, with any failures, keeps the invariant |
| `Safety.MonitorKeepsInv` | controllers/imageclusterinstall_monitor.go:64-210 | One call of the monitor, with any failures, keeps the invariant |
| `Guarantees.ProgressIsLegal` | controllers/conditions.go:132-218 | In every state reached from nothing, by any run whose restored statuses satisfy the invariant, there is one condition per type at most, and Completed, Stopped and Failed are absent or show one of four combinations; Completed and Failed are never both True, and Stopped is True exactly when Completed is; RequirementsMet=True implies a start |
| `Guarantees.StartNeedsReadiness` | controllers/imageclusterinstall_controller.go:387-447 | A boot time appears only in a main step that ends with the deployment found, complete metadata, references to the secrets that hold the kubeconfig and the password on disk, named after the deployment, a built image whose files equal the three secrets, a prepared and managed host, and a cooled, non-terminating data image |
| `Guarantees.StartIsFinal` | controllers/imageclusterinstall_controller.go:431-443 | Over every run boot time and host reference, once set, never change, and the specified host stays the recorded one |
| `Guarantees.CompletionIsFinal` | controllers/imageclusterinstall_monitor.go:79-82 | Over every run a completed installation keeps its whole status, and its host never has a data image again |
| `Guarantees.CompletionNeedsInstalledCluster` | controllers/imageclusterinstall_monitor.go:145-194 | Completed becomes True only in a monitor step that sees an installed cluster on a powered-on host whose data image is gone |
| `Guarantees.FailureFollowsTimeout` | controllers/imageclusterinstall_monitor.go:120-143 | Failed becomes True only strictly past boot time plus the timeout in force, and is left only for completion or while the data image is terminating |
| `MonitorOutcomes.GivesUpIff` | controllers/imageclusterinstall_monitor.go:120-143 | An undisturbed call on an installation whose host is off or whose cluster is not installed gives it up, with Failed=True and an hour until the next call, if and only if the clock is strictly past the boot time plus the annotated or else the default timeout; otherwise all three conditions say what is waited for and the next call is in a minute; nothing else changes |
| `MonitorOutcomes.PollingGivesUpIff` | controllers/imageclusterinstall_monitor.go:86-118 | However often the monitor is called: an installation that does not get there is given up exactly when the last of the calls comes after the timeout |
| `MonitorOutcomes.GivenUpIsLeftAlone` | controllers/imageclusterinstall_monitor.go:123-133 | Once given up nothing changes until the cluster is there, and a timeout that does not parse is an error that changes nothing |
| `MonitorOutcomes.TerminatingImageIsAwaited` | controllers/imageclusterinstall_monitor.go:196-210 | A terminating data image is waited for, without a timeout, a minute at a time |
| `MonitorOutcomes.InstalledIsSaid` | controllers/imageclusterinstall_monitor.go:179-193 | Completion is recorded with status, reason and message of all three conditions |
| `MonitorOutcomes.ErrsIff` | controllers/imageclusterinstall_monitor.go:64-118 | Whatever fails, a call ends with an error if and only if the object cannot be read, or a watched installation has no host, or an operation that is due fails, or the cluster cannot be asked, or the timeout cannot be read when it matters |
| `MonitorOutcomes.UnwatchedIsLeftAlone` | controllers/imageclusterinstall_monitor.go:64-84 | Without an object, before the start and after completion the monitor does nothing |
| `Errors.NoErrorIsSwallowedWatching` | controllers/imageclusterinstall_monitor.go:64-210 | A monitor call that ends without an error has done and asks for what it would have without any failure, lost records of progress aside |
| `Errors.SilentEndIsCompletion` | controllers/imageclusterinstall_monitor.go:179-194 | Whatever fails, a call on a watched installation that ends without error and requeue has recorded the completion, and the data image is gone |
| `Admission.OwnPatchesAreAdmitted` | api/v1alpha1/imageclusterinstall_webhook.go:58-117 | Every single patch of a main call passes the immutability check of the webhook, also after the start |
| `Admission.MainIsPatches` | controllers/imageclusterinstall_controller.go:133-275 | The stored versions of a call follow each other by one patch each, of the status or of the rest, and end with the object the call leaves |
| `Admission.MonitorPatchIsAdmitted` | controllers/imageclusterinstall_monitor.go:86-210 | The one patch of a monitor call passes the webhook |
| `Frozen.SpecIsFrozen` | api/v1alpha1/imageclusterinstall_webhook.go:58-117 | Over every run, restores included: once an installation has started, deployment, host, both network fields, proxy, key, hostname and the rest of its specification stay as they are for the rest of its life |
| `Frozen.UpdateAdmittedIff` | api/v1alpha1/imageclusterinstall_webhook.go:58-117 | An update is admitted if and only if it is well-formed and, after the start, changes none of these fields |
| `Frozen.CreationAdmittedIff` | api/v1alpha1/imageclusterinstall_webhook.go:47-55 | A new object is admitted if and only if it is well-formed |
| `Frozen.SpecStaysWellformed` | api/v1alpha1/imageclusterinstall_webhook.go:86-103 | In every state of every run key and hostname are valid, every network parses, and a proxy comes with a network to check hosts against |
| `Frozen.KubeconfigStaysInReach` | controllers/imageclusterinstall_monitor.go:212-240 | Over every guarded run from a started installation with a complete identity: as long as the object exists its metadata names the admin kubeconfig of its deployment, and that secret holds what it held at the start |
| `Frozen.StartPutsItInReach` | controllers/imageclusterinstall_controller.go:387-447 | A guarded start leaves such a state, with an identity exactly if the manifest on disk is not empty |
| `Guarantees.StepKeepsInstallation` | controllers/imageclusterinstall_controller.go:1329-1333 | No step changes identity, start or completed status of an installation, and another UID appears only with a new object |
| `Guarantees.FinalizerLeavesClean` | controllers/imageclusterinstall_controller.go:1286-1345 | The finalizer leaves only a deleting installation whose directory is gone and whose host has no data image, or whose host is gone with the image's deletion requested |
| `Guarantees.ReleaseIsSound` | controllers/imageclusterinstall_controller.go:1286-1345 | No event but such a main call takes the finalizer away |
| `Guarantees.NothingIsCreatedAfterDeletion` | controllers/imageclusterinstall_controller.go:1296-1345 | After a deletion request no step creates a data image or an image file, and the request stands |
| `WindDown.ReleasesIff` | controllers/imageclusterinstall_controller.go:1296-1345 | An undisturbed call on a deleting installation removes its files, and takes its finalizer away if and only if there is no data image of the named host that this host has to let go; otherwise the image is gone or terminating, the host is asked to reboot, and the next call is in a minute; nothing else changes |
| `WindDown.DeletionErrsIff` | controllers/imageclusterinstall_controller.go:1296-1345 | Whatever fails, a deletion ends with an error if and only if one of its due operations fails: directories, lock, files, data image, or, with no image held, the patch of the finalizer |
| `WindDown.TwoCallsRelease` | controllers/imageclusterinstall_controller.go:1286-1345 | Two such calls, with the image gone in between, release the object and leave neither files nor data image |
| `WindDown.ObjectGoesLast` | controllers/imageclusterinstall_controller.go:1296-1345 | In every step, an object disappears only when it is being deleted and its last finalizer goes |
| `WindDown.BusyDeletionWaits` | controllers/imageclusterinstall_controller.go:1300-1322 | While the lock is held elsewhere the call comes back in five seconds and removes nothing |
| `WindDown.RemovalDoes` | controllers/common.go:45-86 | An undisturbed removal deletes the image and asks exactly an existing host with an image to reboot |
| `WindDown.CleansUpIff` | controllers/common.go:124-151 | An undisturbed call on a completed installation removes the data image if and only if the annotation and the image are there, asks the host to reboot, and comes back in a minute unless the image is gone at once |
| `WindDown.CleanUpErrsIff` | controllers/common.go:124-151 | Whatever fails, the clean-up ends with an error if and only if it is due and the removal or its check fails |
| `WindDown.TwoCallsCleanUp` | controllers/common.go:124-151 | Two such calls, with the image gone in between, end the clean-up |
| `Identity.IdentityIsForGood` | controllers/imageclusterinstall_controller.go:922-1011 | Over every run in which the main calls that reach the image are guarded, with arbitrary failures, directory losses, edits, deletions, recreations and restores: every complete identity is of one generation and keeps kubeconfig, password, hash, crypto, IDs, base domain and cluster name |
| `Identity.IdentitySurvivesIff` | controllers/imageclusterinstall_controller.go:354-385 | In every state with sound identities: no failure whatsoever can make a main call spoil a stored identity, if and only if the call does not reach the image, or an image on disk or a stored identity satisfies the guard, or neither is there and no kubeconfig, password or manifest is on disk |
| `Identity.CallIsSafeIff` | controllers/imageclusterinstall_controller.go:922-1011 | The same for all calls in which the removal of the working directory ends in a given way: they keep every identity if and only if the call does not reach the image or the guard holds for that ending |
| `Identity.OnlyBuildsStore` | controllers/imageclusterinstall_controller.go:143-233 | A main call that changes a secret or starts an installation was made in a state from which the image is reached: not completed, not being deleted, with finalizer, deployment and an acceptable host, not waiting for a restore, and not started with its image still on disk |
| `Identity.CallKeepsIdentityIff` | controllers/imageclusterinstall_controller.go:933-997 | For each undisturbed call, cooled down or not, with or without an image on disk: a complete identity survives if and only if the guard holds |
| `Identity.UnguardedCallBreaks` | controllers/imageclusterinstall_controller.go:1150-1208 | Where the guard does not hold, the undisturbed call breaks the named deployment's identity |
| `Identity.MainKeepsIdentity` | controllers/imageclusterinstall_controller.go:133-275 | A main call keeps every stored identity, whatever fails, if it does not reach the image or is guarded |
| `Identity.StepKeepsIdentity` | controllers/imageclusterinstall_controller.go:1052-1066 | Every step keeps every stored identity, except a main call that reaches the image without its guard |
| `Identity.GuardOfTheBuild` | controllers/imageclusterinstall_controller.go:1167-1193 | The guard on the state is the guard of the build that the call makes with the metadata it chooses |
| `Identity.StartedImageCarriesIff` | controllers/imageclusterinstall_controller.go:387-447 | A guarded call that starts an installation leaves files and secrets of one generation, and the image carries them exactly when an image that was there before agreed with the manifest beside it |
| `Identity.StartedImageEmbedsConfig` | controllers/imageclusterinstall_controller.go:354-385 | Whatever fails, a start whose image was made in the same call has an image with the IDs of the stored metadata, the base domain and cluster name of the deployment, and the present configuration |
| `Discipline.DisciplinedRunIsGuarded` | controllers/imageclusterinstall_controller.go:933-997 | If the deployment reference is edited only while there is no metadata, restored metadata fits, and what a removal leaves in a call that reaches the image is harmless, every main call of the run is guarded, and secrets, metadata and directory fit together in every state |
| `Discipline.ImageCarriesTheIdentity` | internal/installer/reinstall.go:21-65 | In every state of such a run an image on disk carries the stored identity, with the IDs of the metadata and the base domain and cluster name it was generated under |
| `Discipline.NewMetadataFits` | controllers/imageclusterinstall_controller.go:1167-1193 | Metadata made after a recreation takes its IDs from the stored seed, so it fits the stored identity |
| `Discipline.FirstOrder` | internal/credentials/credentials.go:243-265 | All is in order before anything is stored |
| `Discipline.EditedReferenceLosesIdentity` | internal/installer/reinstall.go:21-54 | From a state in order, an admitted edit of the deployment reference and one undisturbed call without an image make another deployment's identity lose its IDs |
| `Discipline.DeletionAfterEditIsGuarded` | controllers/imageclusterinstall_controller.go:1296-1345 | After the same edit, deleting the installation and calling the main controller with any failures is a guarded run |
| `BuildSafety.BuildKeepsIdentityIff` | controllers/imageclusterinstall_controller.go:933-997 | No failure can make a build spoil the stored identity, if and only if a complete directory carries it, a rebuild has its IDs or is ruled out, or a new identity starts from nothing, a sound whole, or one without a seed |
| `BuildSafety.SafeBuildKeepsIdentity` | controllers/imageclusterinstall_controller.go:933-997 | The guard is enough, whichever operations fail |
| `BuildSafety.UnsafeBuildBreaks` | controllers/imageclusterinstall_controller.go:1052-1066 | The guard is necessary: without it the undisturbed build spoils the identity |
| `BuildSafety.StoredIdentitySurvivesIff` | internal/installer/reinstall.go:21-65 | After a successful build a complete identity is what it was exactly when the files of a complete directory carry it or, if they were rebuilt, when the metadata has its IDs |
| `BuildSafety.RemainsAreHarmlessIff` | controllers/imageclusterinstall_controller.go:942-945 | No installer run can turn what a removal left into a complete directory with mixed files, another image or other IDs, if and only if no image is left and nothing, or a whole identity under the right IDs |
| `BuildSafety.LeftoversDecideCoherence` | controllers/imageclusterinstall_controller.go:942-996 | Whatever the installer returns, once all files exist the identity files are of one generation exactly when none of them, or a coherent whole, was left behind |
| `BuildSafety.SurvivingKubeconfigIsMixedIn` | controllers/imageclusterinstall_controller.go:935-945 | A surviving kubeconfig, an installer that fails after its last file, and the next undisturbed call store two generations together |
| `BuildSafety.SurvivingImageIsServed` | controllers/imageclusterinstall_controller.go:935-945 | A surviving image, an installer that fails before replacing it, and the next call leave an image of another generation than the stored identity |
| `BuildSafety.ForeignImageMixesGenerations` | controllers/imageclusterinstall_controller.go:1052-1066 | Storing another deployment's image and losing the kubeconfig write leaves three secrets of two generations |
| `BuildSafety.BuildDoneImage` | controllers/imageclusterinstall_controller.go:986-996 | A successful build leaves the image that was there, or one made from the manifest beside it |
| `BuildSafety.NewImageEmbedsConfig` | internal/installer/reinstall.go:21-54 | A new image embeds the configuration of the call, unless an ignored removal error left a manifest behind and no identity is stored |
| `BuildSafety.BuildStaysAtHome` | controllers/imageclusterinstall_controller.go:1052-1066 | A build touches the secrets of its own deployment only |
| `ImageBuild.BuildKeepsConsistent` | controllers/imageclusterinstall_controller.go:933-997 | One build on harmless remains, with any failures, keeps secrets and directory of one generation under the IDs of the metadata, and keeps a complete identity |
| `ImageBuild.BuildDoneMirrors` | controllers/imageclusterinstall_controller.go:989-1011 | A build that reports success leaves all four files and three secrets that equal the identity files |
| `ImageBuild.RebuildAgrees` | internal/installer/reinstall.go:21-54 | A rebuild from a stored identity, also one that fails half-way, leaves only files that agree with it |
| `ImageBuild.RebuildGenerates` | controllers/imageclusterinstall_controller.go:942-996 | A build without a stored identity on harmless remains yields one generation as soon as all files exist, also when the installer fails afterwards |
| `ImageBuild.Workspace.WriteInput` | controllers/imageclusterinstall_controller.go:922-1011 | The code of the build does to secrets, directory and result what the specification says |
| `ImageBuild.Workspace.RunLocked` | controllers/imageclusterinstall_controller.go:933-997 | The part under the lock, from the existence test to the credentials |
| `ImageBuild.Workspace.WriteReinstall` | internal/installer/reinstall.go:21-93 | Manifest, kubeconfig and password are written in this order, only for an unchanged base domain and cluster name |
| `Credentials.EnsureSecret` | internal/credentials/credentials.go:75-149 | Success means that the secret holds the file; on failure it is as before or holds the file |
| `Credentials.ReadIdentity` | internal/credentials/credentials.go:243-265 | An identity is returned only without an error and then all three secrets exist; an error-free None means that one is missing |
| `Credentials.EnsureCredsEffect` | controllers/imageclusterinstall_controller.go:1052-1066 | Success mirrors the files; in any case nothing disappears, other deployments are untouched, and a changed secret holds its file |
| `Credentials.SeedIsWrittenLast` | controllers/imageclusterinstall_controller.go:1052-1064 | If the seed secret changed, password and kubeconfig already hold their files |
| `Credentials.EnsureCredsIdempotent` | internal/credentials/credentials.go:52-73 | Secrets that equal the files are left alone, whatever fails |
| `Credentials.RenderInjective` | internal/credentials/credentials.go:215-225 | Secret names of different kinds or deployments never clash |
| `Credentials.SecretStore.Ensure` | internal/credentials/credentials.go:75-99 | The code of one ensure does what the specification says |
| `Credentials.SecretStore.EnsureAll` | controllers/imageclusterinstall_controller.go:1052-1066 | The three ensures in their order, ending at the first failure |
| `Credentials.SecretStore.ClusterIdentitySecrets` | internal/credentials/credentials.go:243-265 | The result filled field by field equals the specification |
| `Progress.ThreeCallsStartTheInstallation` | controllers/imageclusterinstall_controller.go:143-274 | If everything the installation asks for is there, three undisturbed calls, each made when the one before asks for it or later, start it and report it; whatever calls follow change nothing but the clock |
| `Progress.RankBoundsCalls` | controllers/imageclusterinstall_controller.go:143-274 | As many undisturbed calls as the rank of the state says are enough |
| `Progress.CallBringsStartCloser` | controllers/imageclusterinstall_controller.go:410-416 | Each undisturbed call succeeds and either starts the installation or lowers the rank |
| `Progress.StartedIsStable` | controllers/imageclusterinstall_controller.go:171-185 | Once started and reported, with the files present, no call changes anything |
| `Progress.PhasesWork` | controllers/imageclusterinstall_controller.go:224-274 | Undisturbed phases reach the end exactly when the image has cooled down, and otherwise ask to be repeated |
| `Progress.SmoothBuildSucceedsIff` | internal/installer/reinstall.go:56-65 | An undisturbed build succeeds if and only if the image exists, or the IDs are known and a stored identity decodes and has this base domain and cluster name |
| `Progress.InstalledClusterCompletes` | controllers/imageclusterinstall_monitor.go:179-193 | An undisturbed monitor call on a running, installed cluster records completion if the data image is gone at once, and otherwise leaves it terminating with the host asked to reboot |
| `Progress.TwoCallsCompleteTheInstallation` | controllers/imageclusterinstall_monitor.go:145-210 | Two such calls, with the image gone in between, complete the installation |
| `HostCare.HostIsLaunchedOnlyWhenReady` | controllers/imageclusterinstall_controller.go:724-750 | A call changes no host but the named one, never its inspection data, and marks it managed only when it is prepared, switched on, asked to reboot unless the image is attached, the image has cooled down, and the identity is stored |
| `HostCare.PhasesHosts` | controllers/imageclusterinstall_controller.go:311-347 | The phases at most prepare the named host, and launch it only if it may boot |
| `Reports.ReportsAreHonest` | controllers/imageclusterinstall_controller.go:207-274 | Past initialisation an error is returned exactly with a Failed reason, a requeue comes with a Pending reason, True is reported exactly with success, and then the start is recorded |
| `Verdicts.CallDeliversVerdict` | controllers/imageclusterinstall_controller.go:202-274 | Whatever fails, a call that gets as far as the phases ends with a verdict that can be read off the state before it and the failures: the first objection in the order references, cleaning, host, networks, metadata, build, data image, cool-down, host state, launch and start decides reason, message, requeue and error, and without one RequirementsMet is True; that is also what the stored condition says unless a report is lost; only a failing patch before the phases ends the call without a report |
| `Verdicts.BuildDelivers` | controllers/imageclusterinstall_controller.go:922-1011 | Whatever fails, a build is busy, fails or is done exactly as a closed form over lock, reads, stored identity, configuration, installer and due secret writes says, and when done its identity files are those on disk, those stored, or those of one new generation |
| `Verdicts.OtherCalls` | controllers/imageclusterinstall_controller.go:133-205 | All other calls: a missing object is no error and an unreadable one is, a new one gets the finalizer and is called again at once, a restored one waits, and one that is under way is left alone except for a RequirementsMet that says False |
| `Verdicts.LostRepairIsNotRepeated` | controllers/imageclusterinstall_controller.go:171-179 | If the repair of a started installation whose image is gone is lost, a call that finds all requirements met reports so and leaves the stored condition at False, because the list in memory already says True |
| `Verdicts.ReportedIsMarked` | controllers/imageclusterinstall_controller.go:192-200 | Whatever fails, a call that reports on the requirements has stored the restore-status and the post-cleanup annotation |
| `Verdicts.IdsAreChosen` | controllers/imageclusterinstall_controller.go:1150-1208 | Whatever fails, when a call changes the metadata each ID is the one it had, else the one in the stored seed, else the new one, the infra ID being generated from the cluster name |
| `Errors.NoErrorIsSwallowed` | controllers/imageclusterinstall_controller.go:133-275 | A main call that ends without an error has done, reports and asks for exactly what it would have without any failure; what the code only logs is a deployment or host that cannot be read, the two reports, and the removal of the old directory |
| `Errors.LostWritesLeaveNoTrace` | controllers/imageclusterinstall_controller.go:202-274 | A lost write leaves the metadata, the recorded start, the data images, and with all its patches lost the host, as they were |
| `Reports.RepairWorksIff` | controllers/imageclusterinstall_controller.go:171-185 | After a start an undisturbed call makes RequirementsMet say True if and only if it did not say Unknown |
| `Reports.LostReportStaysUnknown` | controllers/imageclusterinstall_controller.go:213-215 | A start whose report is lost before an earlier one was stored leaves Unknown, which no later call changes while the image is on disk |
| `Progress.LosingTheFirstReport` | controllers/imageclusterinstall_controller.go:172-179 | For every qualifying installation with a cooled image and no stored report: if only the last report of the call is lost, the start stands, the condition says Unknown, and no later call changes that |
| `Reports.UnderwayOnlyRepairs` | controllers/imageclusterinstall_controller.go:171-185 | While a started installation has its image, a call does nothing but repair the condition |
| `Restore.NothingHappensBeforeStatus` | controllers/imageclusterinstall_controller.go:187-190 | Over any run until its status returns, deletion included, a restored installation keeps its UID and its whole status, no secret changes, and no image file and no data image appears; its annotations change only when users edit them |
| `Restore.NothingIsTakenBeforeStatus` | controllers/imageclusterinstall_controller.go:187-190 | Over any such run without deletion, lost directories and images changed by others, the data images and working directories stay as they are |
| `Restore.RestoredWaits` | controllers/imageclusterinstall_controller.go:187-190 | From the restore of an object on, over any run until its status returns, it has no status, no secret is written, and no image file and no data image appears |
| `Hub.RestoreGateIff` | controllers/imageclusterinstall_controller.go:1424-1431 | The gate holds back exactly the objects that carry the restore label and have an empty status |
| `Restore.RestoredIsLeftAlone` | controllers/imageclusterinstall_controller.go:1424-1431 | A call on a restored installation without status that is not being deleted adds the finalizer at most |
| `Restore.NewImageIsMarked` | controllers/imageclusterinstall_controller.go:1441-1447 | In every step, restores included, a data image appears only for an installation with the stored post-cleanup annotation, and serves its own image |
| `Restore.CleanUpIsThorough` | controllers/common.go:124-151 | A clean-up call that ends without error and without requeue leaves no data image |
| `MainSteps.Reconcile` | controllers/imageclusterinstall_controller.go:133-275 | The code of the main controller reaches the state, requeue and error of the step function, for every world and every failure |
| `MainSteps.Reconciliation.HandleFinalizer` | controllers/imageclusterinstall_controller.go:1286-1345 | The code of the finalizer: added first, removed last |
| `MainSteps.Reconciliation.FinalizeDeleted` | controllers/imageclusterinstall_controller.go:1296-1345 | Files, then data image, then finalizer |
| `MainSteps.Reconciliation.HandlePostCleanup` | controllers/common.go:124-151 | The code of the clean-up |
| `MainSteps.Reconciliation.ValidateConfiguration` | controllers/imageclusterinstall_controller.go:281-327 | The code of phase 1, its reports and its patch |
| `MainSteps.Reconciliation.ValidateBmh` | controllers/imageclusterinstall_controller.go:449-489 | When the host is waited for, refused or taken |
| `MainSteps.Reconciliation.ValidateHost` | controllers/imageclusterinstall_controller.go:329-352 | The code of phase 2 |
| `MainSteps.Reconciliation.ChooseMetadata` | controllers/imageclusterinstall_controller.go:1167-1193 | Each ID from the metadata, else from the seed secret, else new |
| `MainSteps.Reconciliation.SetClusterInstallMetadata` | controllers/imageclusterinstall_controller.go:1150-1208 | The metadata is stored completely or not at all |
| `MainSteps.Reconciliation.CreateImage` | controllers/imageclusterinstall_controller.go:354-385 | The code of phase 3 on the real directory and the real secrets |
| `MainSteps.Reconciliation.EnsureBmhDataImage` | controllers/imageclusterinstall_controller.go:754-794 | The image of the host is found or created |
| `MainSteps.Reconciliation.UpdateBmhProvisioningState` | controllers/imageclusterinstall_controller.go:724-750 | The one patch that launches the host |
| `MainSteps.Reconciliation.ConfigureHost` | controllers/imageclusterinstall_controller.go:387-447 | The code of phase 4 up to the recorded start |
| `MainSteps.Reconciliation.RunAllPhases` | controllers/imageclusterinstall_controller.go:207-274 | The phases with the deferred update of the condition |
| `MainSteps.Reconciliation.ReconcileActive` | controllers/imageclusterinstall_controller.go:150-275 | Everything after the finalizer |
| `MainSteps.Reconciliation.SetRequirementsMet` | controllers/conditions.go:103-120 | The list in memory is updated and patched if that changed it |
| `MonitorSteps.WatchInstallation` | controllers/imageclusterinstall_monitor.go:64-118 | The code of the monitor reaches the state, requeue and error of the step function |
| `MonitorSteps.Watching.HandleClusterTimeout` | controllers/imageclusterinstall_monitor.go:120-143 | The timeout test, its override and the conditions it records |
| `MonitorSteps.Watching.HandleDataImageDeletion` | controllers/imageclusterinstall_monitor.go:196-210 | A terminating image is reported and waited for |
| `MonitorSteps.Watching.CheckStatus` | controllers/imageclusterinstall_monitor.go:145-194 | From the image test to the recorded completion |
| `MonitorSteps.Watching.FindKubeconfig` | controllers/imageclusterinstall_monitor.go:212-230 | The reference is set, and the secret it names has something under the one key that is read |
| `MonitorSteps.Watching.SetConditions` | controllers/conditions.go:132-218 | Three updates and one patch if any of them changed something |
| `DataImages.RemoveDataImage` | controllers/common.go:62-77 | On success the image is gone or terminating, or the host is; other images and hosts are untouched |
| `DataImages.Remove` | controllers/common.go:62-77 | The code of the removal |
| `DataImages.RebootHost` | controllers/common.go:79-86 | The reboot annotation is set, once |
| `Webhook.AdmitUpdate` | api/v1alpha1/imageclusterinstall_webhook.go:58-117 | The code admits exactly valid updates that leave the user's part of a started installation alone |
| `Webhook.CheckSpec` | api/v1alpha1/imageclusterinstall_webhook.go:86-103 | Valid exactly when keys, hostname, all networks and the proxy are |
| `Webhook.EffectiveTexts` | api/v1alpha1/imageclusterinstall_webhook.go:164-179 | The new network field wins over the legacy one |
| `Conditions.UpdatesRefineTable` | controllers/conditions.go:25-55 | Any sequence of updates keeps one entry per type and does what it does to a table keyed by type |
| `Conditions.UpdatesCommute` | controllers/conditions.go:25-55 | Updates of different types give the same table in either order |
| `Conditions.TransitionStartsTheStatus` | controllers/conditions.go:46-54 | After any sequence of updates the transition time is that of the update that brought the present status about |
| `Conditions.ProbeStartsTheContent` | controllers/conditions.go:25-55 | After any sequence of updates an entry has status, reason and message of the last update of its type, and its probe time is that of the update that first said so |
| `Conditions.SetUnchangedIff` | controllers/conditions.go:38-43 | An update leaves the list alone exactly when the entry already says the same |
| `Conditions.SetProgressUnchangedIff` | controllers/conditions.go:132-158 | Three updates leave the list alone exactly when each of them does |
| `Conditions.AddMissingUnchangedIff` | controllers/conditions.go:85-97 | Initialisation changes nothing exactly when all four types are there, and keeps one entry per type |
| `Conditions.NewTypesAreUnknown` | controllers/conditions.go:57-101 | Initialisation makes a missing type Unknown, with the unknown reason and the present time, and leaves a reported one alone |
| `Conditions.ConditionList.FindCondition` | controllers/conditions.go:16-23 | The first entry of a type, or none |
| `Conditions.ConditionList.SetClusterInstallCondition` | controllers/conditions.go:25-55 | The in-place update equals the specification and says whether anything changed |
| `Conditions.ConditionList.InitializeConditions` | controllers/conditions.go:57-101 | The loop adds exactly the missing initial conditions |
| `Conditions.ConditionList.SetProgressConditions` | controllers/conditions.go:132-158 | Three in-place updates and whether any of them changed the list |
| `Spoke.InstalledIff` | internal/monitor/monitor.go:50-151 | The status says installed exactly when the start time is known, the first Available condition is True, some condition changed after start minus 60 minutes, and there are nodes with every Ready condition True |
| `Spoke.StartedIff` | internal/monitor/monitor.go:105-117 | The operator has started exactly when the latest transition plus an hour is after the start |
| `Spoke.FirstAvailableDecides` | internal/monitor/monitor.go:79-103 | The first Available condition alone decides what is said about the version, and with which reason |
| `Spoke.ComplaintsExact` | internal/monitor/monitor.go:119-151 | Exactly the Ready conditions that are not True are complained about |
| `Spoke.StatusSays` | internal/monitor/monitor.go:50-77 | What cannot be read is said and nothing after it is looked at; otherwise version and nodes are reported, with exactly the deserved complaints |
| `Spoke.GetClusterInstallStatus` | internal/monitor/monitor.go:50-77 | The code computes that status and its texts |
| `Spoke.ClusterVersionStatus` | internal/monitor/monitor.go:79-103 | The search over the version conditions |
| `Spoke.DidOperatorStart` | internal/monitor/monitor.go:108-117 | Some condition changed after the margin before the start |
| `Spoke.NodesStatus` | internal/monitor/monitor.go:119-151 | Readiness and the complaints in order, from two nested loops |
| `MachineNetworks.ValidateMachineNetworks` | controllers/imageclusterinstall_controller.go:491-521 | The code accepts exactly the hosts that fit the networks |
| `MachineNetworks.ValidateDualStack` | controllers/imageclusterinstall_controller.go:525-572 | Accepted exactly when both families are given and one MAC has an address in each |
| `MachineNetworks.GroupByMac` | controllers/imageclusterinstall_controller.go:539-544 | Grouping loses no usable port and invents none |
| `MachineNetworks.AcceptsMonotone` | controllers/imageclusterinstall_controller.go:525-572 | More ports never turn an accepted host away |
| `MachineNetworks.AcceptsOrderIndependent` | controllers/imageclusterinstall_controller.go:525-572 | The order of the ports does not matter |
| `MachineNetworks.AcceptsIff` | controllers/imageclusterinstall_controller.go:491-572 | With networks read as intervals of addresses: none accepts any host, one needs an address in it, more need an address in a network of 32 bits and one in another, on ports of one MAC address |
| `MachineNetworks.CoversIffInInterval` | controllers/imageclusterinstall_controller.go:1393-1403 | An address has the network bits of a prefix exactly when its number lies between those of the network address and of the last address |
| `MachineNetworks.LegacyIsAlias` | controllers/imageclusterinstall_controller.go:583-608 | The legacy field stands for a list of one, must repeat the first network of a list, and otherwise no host is accepted |
| `InfraId.GeneratedShape` | controllers/imageclusterinstall_controller.go:1211-1229 | At most 27 characters, letters, digits and dashes only, no two dashes in a row |
| `InfraId.SanitizeFixpointIff` | controllers/imageclusterinstall_controller.go:1212-1225 | Sanitising changes nothing exactly when nothing is objectionable |
| `InfraId.SanitizeIdempotent` | controllers/imageclusterinstall_controller.go:1212-1225 | Sanitising twice is sanitising once |
| `InfraId.LettersSurvive` | controllers/imageclusterinstall_controller.go:1212-1225 | Sanitising adds and reorders no letter or digit, loses none up to 21 characters, and keeps 20 or 21 characters of a longer name |
| `InfraId.SinglePass` | controllers/imageclusterinstall_controller.go:1212-1218 | One pass over the text equals the two rewrites |
| `InfraId.GenerateInfraId` | controllers/imageclusterinstall_controller.go:1211-1229 | The code computes the specified identifier |
| `ImagePaths.ServerFindsTheImage` | internal/imageserver/imageserver.go:20-33 | A request for an installation's URL parses to its namespace and UID and finds the file that was written for it |
| `ImagePaths.SamePlace` | controllers/imageclusterinstall_controller.go:277-279 | For any pair, server and controller mean the same file, however the path is joined |
| `ImagePaths.JoinLaws` | controllers/imageclusterinstall_controller.go:911-935 | A slash joins its two sides one after the other, empty elements and dots stay, two dots lead back, and above the root is nothing |
| `ImagePaths.ParseIsGreedy` | internal/imageserver/imageserver.go:20-28 | The parser finds a reading whenever there is one, and the one with the longest namespace |
| `ImagePaths.RoundTripIff` | internal/imageserver/imageserver.go:20-28 | A printed pair is read back if and only if the UID has no slash before its last character |
| `ImagePaths.SlashIsMisread` | internal/imageserver/imageserver.go:20-28 | A UID with a slash inside is not read back |
| `ImagePaths.UrlPathPrints` | controllers/imageclusterinstall_controller.go:377 | Joining the URL leaves Kubernetes names as they are |
| `ImagePaths.UrlsAreSeparate` | controllers/imageclusterinstall_controller.go:377 | Different installations never share a URL |
| `ImagePaths.FilesAreSeparate` | controllers/imageclusterinstall_controller.go:910-918 | Different installations never share a file |

## Left out

- Discipline.DisciplinedRunIsGuarded: gives one way to meet the guard, not the only one; the law without a discipline is Identity.IdentityIsForGood, whose guard Identity.CallIsSafeIff shows to be exact.
- Discipline.ImageCarriesTheIdentity: speaks of disciplined runs only, because an edit of the deployment reference alone leaves an image of another deployment on disk; what holds in every guarded run is Identity.StartedImageCarriesIff.
- ImageBuild.BuildKeepsConsistent: asks for harmless remains, which BuildSafety.RemainsAreHarmlessIff shows to be necessary; what every guarded build keeps is BuildSafety.BuildKeepsIdentityIff.
- Safety.RunKeepsInv: covers runs without restore steps, because a restored status can be anything and the image of a completed installation can be there again; Safety.RunKeepsSane covers restores of statuses the invariant allows, and what holds with any restore is in Restore and Identity.
- Progress.ThreeCallsStartTheInstallation: the hosts, images and deployments stay as they are between the calls.
- Finer interleavings: a JSON merge patch replaces the whole condition list, so two controllers that patch at the same time could overwrite each other; no claim is made about that.
- MainSteps.Reconciliation.RunAllPhases: represents the copy of the installation in memory by its condition list; after a failed metadata or status patch the rest of the copy differs from storage, but nothing reads it.
- A data image that already exists for the host is taken as it is; nothing is claimed about its URL, nor about images on a host that was named before an edit.
- MonitorSteps.Watching.FindKubeconfig: what a secret holds that is not one of the operator's own, and the client made from a kubeconfig, are one fault flag.
- Openshift installer, asset store and JSON or YAML encoding: a contract stands in for them.
- The file lock: an attempt that succeeds, fails, or finds the lock taken.
- Pull secrets, CA bundles, extra manifests, nmstate and the contents of the config files: one fault flag each way and one opaque number.
- SSH key and hostname syntax, CIDR and address parsing: results of library calls are inputs.
- Exact message texts: messages are compared, not spelled, and a host state is Available, ExternallyProvisioned or another.
- Backup labels, logging, watches, indexes, TLS, process start-up and the HTTP response itself.
- Sub-second time: clocks, creation times and timeouts are whole seconds.
