/**
 The identity of a cluster over whole runs. Once the three secrets of a deployment are complete they are of one
 generation and keep their kubeconfig, password, crypto, IDs, base domain and cluster name for good, through
 failed and repeated calls, pod restarts, edits, deletion and recreation, and restores, as long as no call of the
 main controller that gets as far as the image is made in a state where it could spoil them. That guard is exact:
 where it does not hold, an undisturbed call breaks the law.
 */
module Identity {
  import opened Base
  import opened Conditions
  import opened Credentials
  import opened ImageBuild
  import opened BuildSafety
  import opened MachineNetworks
  import opened Hub
  import opened DataImages
  import opened MainReconciler
  import opened MainEffects
  import opened Monitor
  import opened MonitorEffects
  import opened Safety
  import opened System
  import InfraId

  // ------------------------------------------------------------- the law

  /** Every stored identity is sound. */
  ghost predicate StoredSound(w: World) {
    forall n :: StoredOk(w.secrets, n)
  }

  /** Every complete identity is still the same, and whatever is complete now is of one generation. */
  ghost predicate IdentityStep(w: World, v: World) {
    StoredSound(v) && forall n :: SameIdentity(w.secrets, v.secrets, n)
  }

  // ----------------------------------------------------------- the guard

  predicate DeploymentExists(w: World) {
    && w.install.Some? && w.install.value.spec.deployment.Some? && w.install.value.spec.deployment.value != ""
    && w.install.value.spec.deployment.value in w.deployments
  }

  /** The metadata has no ID of its own that differs from the stored one. */
  predicate FitsIds(metadata: Option<Metadata>, m: Manifest) {
    metadata.Some? ==>
      && (metadata.value.clusterId == "" || metadata.value.clusterId == m.clusterId)
      && (metadata.value.infraId == "" || metadata.value.infraId == m.infraId)
  }

  /**
   A call may be made in this state, if removing the previous directory ends like this: a complete image on disk
   carries the identity stored for the deployment that is named now, or is sound where none is stored; a stored
   identity that can be rebuilt fits the metadata; and a new identity does not start from parts of another.
   */
  ghost predicate StoresSafely(w: World, removal: Removal) {
    DeploymentExists(w) ==>
      var i := w.install.value;
      var name, dir := i.spec.deployment.value, Present(DirOf(w, i.uid));
      var d := w.deployments[name];
      if Built(dir) then SafeToStore(w.secrets, dir, name)
      else match IdentityOf(w.secrets, name)
        case Some(id) =>
          && id.seed.ManifestOf?
          && d.baseDomain == id.seed.manifest.baseDomain && d.clusterName == id.seed.manifest.clusterName
          ==> FitsIds(i.spec.metadata, id.seed.manifest)
        case None => SafeRemains(AfterRemoval(dir, removal))
  }

  /** The host is there and would pass its checks. */
  predicate HostPasses(w: World) {
    && HostAt(w) && RefOf(w).name != ""
    && var spec, h := w.install.value.spec, HostOf(w);
       || h.externallyProvisioned || h.inspectDisabled
       || (h.state == Available && h.nics.Some? && Accepts(spec.machineNetwork, spec.machineNetworks, h.nics.value))
  }

  /** Deployment, host and metadata let the phases get as far as the image. */
  predicate Acceptable(w: World) {
    && DeploymentExists(w) && HostPasses(w)
    && !MetadataPanics(w.install.value.spec.metadata, w.install.value.spec.deployment.value)
  }

  /** A call in this state enters the phases and gets as far as the image. */
  predicate ReachesBuild(w: World) {
    && Acceptable(w)
    && var i := w.install.value;
       && !i.deleting && i.finalizer && !InstallationCompleted(i) && !FreshFromBackup(i)
       && !(i.status.bootTime.Some? && ImageReady(w, i.uid))
  }

  /** A call that gets as far as the image is made only where it stores safely. */
  ghost predicate SafeCall(w: World, removal: Removal) {
    ReachesBuild(w) ==> StoresSafely(w, removal)
  }

  ghost predicate Guarded(w: World, e: Event) {
    e.Main? ==> SafeCall(w, e.main.build.removal)
  }

  ghost predicate GuardedRun(o: Options, w: World, run: seq<Event>)
    decreases |run|
  {
    run == [] || (Enabled(w, run[0]) && Guarded(w, run[0]) && GuardedRun(o, Apply(o, w, run[0]), run[1..]))
  }

  // ------------------------------------------- which calls build at all

  /** Secrets, files or the start have changed. */
  predicate HasBuilt(w: World, v: World)
    requires w.install.Some? && v.install.Some?
  {
    v.secrets != w.secrets || v.dirs != w.dirs || NewlyStarted(w, v)
  }

  lemma ChecksPassed(w: World, list: seq<Condition>, deployment: Option<ClusterDeployment>, f: MainFaults)
    requires w.install.Some? && Configuration(w, list, deployment, f).Proceed?
    requires HostValidation(Configuration(w, list, deployment, f).w, list, f).Proceed?
    ensures deployment.Some? && HostPasses(w)
  {
    hide Accepts;
  }

  lemma BeforeImagePassed(w: World, list: seq<Condition>, deployment: Option<ClusterDeployment>, f: MainFaults)
    requires w.install.Some?
    requires deployment.Some? ==> w.install.value.spec.deployment.Some?
    requires BeforeImage(w, list, deployment, f).Proceed?
    ensures deployment.Some? && HostPasses(w)
    ensures !MetadataPanics(w.install.value.spec.metadata, w.install.value.spec.deployment.value)
  {
    hide Configuration, HostValidation, HostPasses, MetadataPanics, MetadataComplete, NewMetadata;
    ChecksPassed(w, list, deployment, f);
  }

  /** The phases build only for a host that passes its checks. */
  lemma RunPhasesBuilt(o: Options, w: World, list: seq<Condition>, deployment: Option<ClusterDeployment>, f: MainFaults)
    requires w.install.Some?
    requires deployment.Some? ==> DeploymentExists(w)
    requires var v := RunPhases(o, w, list, deployment, f).w; v.install.Some? && HasBuilt(w, v)
    ensures Acceptable(w)
  {
    hide BeforeImage, ImageAndHost, HostPasses, MetadataPanics, MetadataComplete, Set;
    var c := BeforeImage(w, list, deployment, f);
    BeforeImageEffect(w, list, deployment, f);
    if c.Proceed? {
      BeforeImagePassed(w, list, deployment, f);
    }
  }

  lemma TouchedBuilt(u: World, w: World, v: World)
    requires Touched(u, w) && v.install.Some? && HasBuilt(u, v)
    ensures HasBuilt(w, v)
  {
    hide Core;
  }

  lemma AcceptableBack(u: World, w: World)
    requires Touched(u, w) && Acceptable(w)
    ensures Acceptable(u)
  {
    hide Accepts, MetadataPanics, Core;
  }

  lemma TouchedHasNotBuilt(u: World, w: World)
    requires Touched(u, w)
    ensures !HasBuilt(u, w)
  {
    hide Core;
  }

  lemma ActiveBuilt(o: Options, w: World, f: MainFaults)
    requires w.install.Some? && !InstallationCompleted(w.install.value)
    requires var v := Active(o, w, f).w; v.install.Some? && HasBuilt(w, v)
    ensures var i := w.install.value;
      && Acceptable(w) && !FreshFromBackup(i)
      && !(i.status.bootTime.Some? && ImageReady(w, i.uid))
  {
    hide Repair, Prepare, RunPhases, Touched, CondSync, HasBuilt, Acceptable, WellPrepared, ImageReady, BeingRestored,
         InstallationCompleted, SaysMet, SameProgress, StillReported;
    var h := Repair(w, f);
    RepairEffect(w, f);
    PatchTouches(w, Stored(h.w));
    var p := Prepare(h.w, h.list, f);
    PrepareEffect(h.w, h.list, f);
    TouchedTransitive(w, h.w, p.w);
    TouchedHasNotBuilt(w, h.w);
    TouchedHasNotBuilt(w, p.w);
    if !p.err {
      var v := RunPhases(o, p.w, p.list, LookUpDeployment(w, f), f).w;
      TouchedDeployment(w, p.w);
      RestoreGateIff(w.install.value);
      if v.install.Some? && HasBuilt(w, v) {
        TouchedBuilt(w, p.w, v);
        RunPhasesBuilt(o, p.w, p.list, LookUpDeployment(w, f), f);
        AcceptableBack(w, p.w);
      }
    }
  }

  lemma TouchedDeployment(w: World, v: World)
    requires Touched(w, v)
    ensures v.deployments == w.deployments && v.install.value.spec == w.install.value.spec
  {
  }

  /** A call that changes the secrets or records a start was made where calls get as far as the image. */
  lemma OnlyBuildsStore(o: Options, w: World, f: MainFaults)
    requires w.install.Some?
    requires var v := MainReconcile(o, w, f).w;
             v.secrets != w.secrets || (v.install.Some? && NewlyStarted(w, v))
    ensures ReachesBuild(w)
  {
    hide Finalize, Active, PostCleanup, Acceptable, BeingRestored, ImageReady, InstallationCompleted, ImagesShrink;
    FinalizeEffect(w, f);
    if InstallationCompleted(w.install.value) {
      CompletedIsCleanedUp(o, w, f);
      PostCleanupEffect(w, f);
    } else {
      ActiveIsThere(o, w, f);
      if HasBuilt(w, Active(o, w, f).w) {
        ActiveBuilt(o, w, f);
      }
    }
  }

  lemma ActiveIsThere(o: Options, w: World, f: MainFaults)
    requires w.install.Some? && !InstallationCompleted(w.install.value)
    ensures Active(o, w, f).w.install.Some?
  {
    hide Active;
    ActiveEffect(o, w, f);
  }

  // ----------------------------------------------------------- one call

  /** The metadata a call builds with: the stored one if complete, else what completes it. */
  function NextMetadata(w: World, f: MainFaults): Option<Metadata>
    requires DeploymentExists(w)
  {
    var name := w.install.value.spec.deployment.value;
    var current := w.install.value.spec.metadata;
    if MetadataComplete(current, name) then current
    else NewMetadata(current, w.secrets, name, w.deployments[name].clusterName, f)
  }

  /** The guard of the call is the guard of its build. */
  lemma GuardOfTheBuild(w: World, f: MainFaults, removal: Removal)
    requires DeploymentExists(w) && StoredOk(w.secrets, w.install.value.spec.deployment.value)
    requires NextMetadata(w, f).Some?
    ensures var name := w.install.value.spec.deployment.value;
      StoresSafely(w, removal) <==>
        SafeToBuild(w.secrets, DirOf(w, w.install.value.uid), name,
                    ConfigFor(NextMetadata(w, f), w.deployments[name], f.configRest), removal)
  {
    hide InfraId.Generate, SafeToStore, SafeRemains, Coherent, KubeconfigName, PasswordName;
    var name := w.install.value.spec.deployment.value;
    var current := w.install.value.spec.metadata;
    if IdentityOf(w.secrets, name).Some? {
      CoherentSeed(IdentityOf(w.secrets, name).value);
      assert Content(w.secrets, SecretName(SeedReconfiguration, name)) == Some(IdentityOf(w.secrets, name).value.seed);
    }
  }

  lemma CoherentSeed(id: IdentityData)
    requires Coherent(id)
    ensures id.seed.ManifestOf?
  {
  }

  /** What is built with is the next metadata, and the guard protects what is built. */
  lemma OutcomeKeepsIdentity(w: World, v: World, d: Option<ClusterDeployment>, f: MainFaults)
    requires StoredSound(w) && StoresSafely(w, f.build.removal)
    requires w.install.Some? && v.install.Some? && v.install.value.uid == w.install.value.uid && Found(w, d)
    requires d.Some? ==> DeploymentExists(w)
    requires BuildOutcome(w, v, d, f) && MetadataOutcome(w, v, d, f)
    ensures IdentityStep(w, v)
  {
    hide WriteInputData, StoresSafely, SafeToBuild, StoredOk, SameIdentity, NewMetadata, MetadataComplete;
    if v.secrets != w.secrets || v.dirs != w.dirs {
      var name := w.install.value.spec.deployment.value;
      var dir := DirOf(w, w.install.value.uid);
      var c := ConfigFor(v.install.value.spec.metadata, d.value, f.configRest);
      assert v.install.value.spec.metadata == NextMetadata(w, f);
      CompleteIsSome(v.install.value.spec.metadata, name);
      assert StoredOk(w.secrets, name);
      GuardOfTheBuild(w, f, f.build.removal);
      assert v.secrets == WriteInputData(w.secrets, dir, name, c, f.build).secrets;
      SafeBuildKeepsIdentity(w.secrets, dir, name, c, f.build);
      BuildStaysAtHome(w.secrets, dir, name, c, f.build);
      forall n ensures IdentityKept(w.secrets, v.secrets, n) {
        if n != name {
          assert StoredOk(w.secrets, n);
          ElsewhereIsKept(w.secrets, v.secrets, name, n);
        }
      }
      KeptIsStep(w, v);
    } else {
      SameSecretsIsStep(w, v);
    }
  }

  lemma CompleteIsSome(m: Option<Metadata>, name: string)
    requires MetadataComplete(m, name)
    ensures m.Some?
  {
  }

  lemma KeptIsStep(w: World, v: World)
    requires forall n :: IdentityKept(w.secrets, v.secrets, n)
    ensures IdentityStep(w, v)
  {
    hide StoredOk, SameIdentity;
    forall n ensures StoredOk(v.secrets, n) && SameIdentity(w.secrets, v.secrets, n) {
      assert IdentityKept(w.secrets, v.secrets, n);
    }
  }

  lemma SameSecretsIsStep(w: World, v: World)
    requires StoredSound(w) && v.secrets == w.secrets
    ensures IdentityStep(w, v)
  {
    hide StoredOk, KernelOf;
  }

  lemma ActiveKeepsIdentity(o: Options, w: World, f: MainFaults)
    requires StoredSound(w) && w.install.Some? && !InstallationCompleted(w.install.value)
    requires StoresSafely(w, f.build.removal)
    ensures IdentityStep(w, Active(o, w, f).w)
  {
    hide Active, StoresSafely, MetadataOutcome, BuildOutcome, Core, StoredSound, IdentityStep,
         SameProgress, Filled, StillReported, SaysMet, BootKept, NewBoot, ImagesStep;
    var v := Active(o, w, f).w;
    ActiveEffect(o, w, f);
    ActiveIdentity(o, w, f);
    CoreFields(w.install.value, v.install.value);
    OutcomeKeepsIdentity(w, v, LookUpDeployment(w, f), f);
  }

  /** A safe call keeps every stored identity, whatever fails. */
  lemma MainKeepsIdentity(o: Options, w: World, f: MainFaults)
    requires StoredSound(w) && SafeCall(w, f.build.removal)
    ensures IdentityStep(w, MainReconcile(o, w, f).w)
  {
    var v := MainReconcile(o, w, f).w;
    if v.secrets == w.secrets {
      SameSecretsIsStep(w, v);
    } else {
      OnlyBuildsStore(o, w, f);
      assert MainReconcile(o, w, f) == Active(o, w, f) by { hide Active, Finalize, Acceptable; }
      hide MainReconcile, Active, StoredSound, StoresSafely, IdentityStep, Acceptable;
      ActiveKeepsIdentity(o, w, f);
    }
  }

  lemma MonitorKeepsIdentity(o: Options, w: World, f: MonitorFaults)
    requires StoredSound(w)
    ensures IdentityStep(w, MonitorReconcile(o, w, f).w)
  {
    hide StoredSound, IdentityStep, Recordable, ImagesShrink;
    SameSecretsIsStep(w, w);
    if w.install.Some? {
      hide MonitorReconcile;
      MonitorEffect(o, w, f);
      SameSecretsIsStep(w, MonitorReconcile(o, w, f).w);
    }
  }

  /** Nothing but a call of the main controller changes the identity secrets. */
  lemma StepKeepsIdentity(o: Options, w: World, e: Event)
    requires StoredSound(w) && Guarded(w, e)
    ensures IdentityStep(w, Apply(o, w, e))
  {
    hide StoredSound, IdentityStep, MainReconcile, MonitorReconcile, SafeCall;
    match e {
      case Main(f) => MainKeepsIdentity(o, w, f);
      case Watch(f) => MonitorKeepsIdentity(o, w, f);
      case _ => SameSecretsIsStep(w, Apply(o, w, e));
    }
  }

  // ------------------------------------------------------------------ runs

  /**
   Over every guarded run, with any failures, directory losses, edits, deletions, recreations and restores: an
   identity that is complete somewhere along it stays the same identity, and every complete identity is of one
   generation.
   */
  lemma {:induction false} IdentityIsForGood(o: Options, w: World, run: seq<Event>)
    requires StoredSound(w) && GuardedRun(o, w, run)
    ensures IdentityStep(w, After(o, w, run))
    decreases |run|
  {
    hide StoredSound, Apply, Enabled, Guarded, SameIdentity;
    if run == [] {
      SameSecretsIsStep(w, w);
    } else {
      var u, v := Apply(o, w, run[0]), After(o, w, run);
      StepKeepsIdentity(o, w, run[0]);
      IdentityIsForGood(o, u, run[1..]);
      forall n ensures SameIdentity(w.secrets, v.secrets, n) {
        assert SameIdentity(w.secrets, u.secrets, n) && SameIdentity(u.secrets, v.secrets, n);
        SameTransitive(w.secrets, u.secrets, v.secrets, n);
      }
    }
  }

  lemma SameTransitive(s: Secrets, t: Secrets, u: Secrets, n: string)
    requires SameIdentity(s, t, n) && SameIdentity(t, u, n)
    ensures SameIdentity(s, u, n)
  {
  }

  // ------------------------------------------------ the guard is exact

  /** Nothing fails before the image is built. */
  predicate QuietStart(f: MainFaults) {
    && !f.getInstall && !f.getDeployment
    && f.restoreStatus == Fine && f.postCleanup == Fine && f.initialize == Fine
    && !f.getHost && f.cleaning == Fine && f.external == Fine && !f.readSeed && f.metadata == Fine
  }

  lemma SeedIsReadable(w: World, f: MainFaults)
    requires DeploymentExists(w) && StoredOk(w.secrets, w.install.value.spec.deployment.value) && !f.readSeed
    ensures NextMetadata(w, f).Some?
  {
    hide InfraId.Generate;
  }

  lemma HostChecksPass(w: World, list: seq<Condition>, d: ClusterDeployment, f: MainFaults)
    requires w.install.Some? && HostPasses(w) && QuietStart(f)
    ensures var a := Configuration(w, list, Some(d), f);
      && a.Proceed? && HostValidation(a.w, list, f).Proceed?
  {
    hide Accepts;
  }

  lemma MetadataIsSet(w: World, list: seq<Condition>, f: MainFaults)
    requires DeploymentExists(w) && QuietStart(f) && NextMetadata(w, f).Some?
    requires !MetadataPanics(w.install.value.spec.metadata, w.install.value.spec.deployment.value)
    ensures var name := w.install.value.spec.deployment.value;
            var c := SetMetadata(w, list, name, w.deployments[name], f);
      c.Proceed? && c.w.install.value == WithMetadata(w.install.value, NextMetadata(w, f))
  {
    hide NewMetadata, MetadataComplete, MetadataPanics, WithMetadata;
    SameMetadata(w.install.value);
  }

  lemma SameMetadata(i: Install)
    ensures WithMetadata(i, i.spec.metadata) == i
  {
  }

  lemma BeforeImageReaches(w: World, list: seq<Condition>, f: MainFaults)
    requires Acceptable(w) && QuietStart(f) && NextMetadata(w, f).Some?
    ensures var d := w.deployments[w.install.value.spec.deployment.value];
            var c := BeforeImage(w, list, Some(d), f);
      && c.Proceed? && c.w.secrets == w.secrets && c.w.dirs == w.dirs
      && c.w.install.value == WithMetadata(w.install.value, NextMetadata(w, f))
  {
    hide Configuration, HostValidation, SetMetadata, NewMetadata, MetadataComplete, MetadataPanics, HostPasses,
         QuietStart;
    var d := w.deployments[w.install.value.spec.deployment.value];
    HostChecksPass(w, list, d, f);
    var a := Configuration(w, list, Some(d), f);
    MetadataIsSet(HostValidation(a.w, list, f).w, list, f);
  }

  /** What the secrets are after the phases. */
  function BuiltSecrets(w: World, f: MainFaults): Secrets
    requires DeploymentExists(w)
  {
    var name := w.install.value.spec.deployment.value;
    WriteInputData(w.secrets, DirOf(w, w.install.value.uid), name,
                   ConfigFor(NextMetadata(w, f), w.deployments[name], f.configRest), f.build).secrets
  }

  lemma PhasesStore(o: Options, w: World, list: seq<Condition>, f: MainFaults)
    requires Acceptable(w) && QuietStart(f) && NextMetadata(w, f).Some?
    ensures var d := w.deployments[w.install.value.spec.deployment.value];
            RunPhases(o, w, list, Some(d), f).w.secrets == BuiltSecrets(w, f)
  {
    var name := w.install.value.spec.deployment.value;
    var d := w.deployments[name];
    BeforeImageReaches(w, list, f);
    hide Acceptable, QuietStart, NextMetadata, BeforeImage, ImageAndHost, WriteInputData, RecordReport;
    var c := BeforeImage(w, list, Some(d), f);
    ImageAndHostEffect(o, c.w, c.list, name, d, f);
  }

  /** Annotations and conditions do not matter to the build. */
  lemma TouchedReaches(w: World, v: World, f: MainFaults)
    requires Acceptable(w) && Touched(w, v)
    ensures Acceptable(v) && NextMetadata(v, f) == NextMetadata(w, f) && BuiltSecrets(v, f) == BuiltSecrets(w, f)
  {
    hide Accepts, NewMetadata, MetadataComplete, MetadataPanics, WriteInputData, ConfigFor;
    CoreFields(w.install.value, v.install.value);
  }

  lemma QuietPrepare(w: World, list: seq<Condition>, f: MainFaults)
    requires w.install.Some? && QuietStart(f)
    ensures !Prepare(w, list, f).err
  {
    hide Initialized;
  }

  /** A quiet call that gets as far as the image stores what the build stores. */
  lemma CallStores(o: Options, w: World, f: MainFaults)
    requires ReachesBuild(w) && QuietStart(f) && NextMetadata(w, f).Some?
    ensures MainReconcile(o, w, f).w.secrets == BuiltSecrets(w, f)
  {
    var d := w.deployments[w.install.value.spec.deployment.value];
    assert LookUpDeployment(w, f) == Some(d);
    assert MainReconcile(o, w, f) == Active(o, w, f) by { hide Active, Finalize, Acceptable; }
    var h := Repair(w, f);
    var p := Prepare(h.w, h.list, f);
    QuietPrepare(h.w, h.list, f);
    assert Active(o, w, f) == RunPhases(o, p.w, p.list, Some(d), f) by {
      hide RunPhases, Prepare, Repair, Acceptable, QuietStart;
    }
    hide MainReconcile, Active, RunPhases, Prepare, Repair, Acceptable, QuietStart, NextMetadata, BuiltSecrets, Touched,
         CondSync, WellPrepared, Find;
    RepairEffect(w, f);
    PatchTouches(w, Stored(h.w));
    PrepareEffect(h.w, h.list, f);
    TouchedTransitive(w, h.w, p.w);
    TouchedReaches(w, p.w, f);
    TouchedDeployment(w, p.w);
    PhasesStore(o, p.w, p.list, f);
  }

  /** A call in which nothing fails but, perhaps, the removal of the previous directory. */
  function QuietCall(removal: Removal, generation: nat): MainFaults {
    MainFaults(false, Fine, false, false, false, Removed, RemovalFaults(false, Fine, false, false, Fine), Fine,
               false, false, false, Fine, Fine, Fine, false, Fine, Fine, false, Fine,
               QuietBuild(removal, Success(generation)), false, false, false, Fine, false, Fine, Fine, false,
               "0", "", 0)
  }

  /** In a state that the guard rules out, the undisturbed call breaks the identity of the named deployment. */
  lemma UnguardedCallBreaks(o: Options, w: World, removal: Removal)
    requires ReachesBuild(w) && StoredSound(w) && !StoresSafely(w, removal)
    ensures var i := w.install.value;
            var f := QuietCall(removal, NewGeneration(AfterRemoval(Present(DirOf(w, i.uid)), removal)));
      !IdentityKept(w.secrets, MainReconcile(o, w, f).w.secrets, i.spec.deployment.value)
  {
    var i := w.install.value;
    var name, dir := i.spec.deployment.value, DirOf(w, i.uid);
    var f := QuietCall(removal, NewGeneration(AfterRemoval(Present(dir), removal)));
    assert QuietStart(f);
    assert StoredOk(w.secrets, name);
    hide MainReconcile, StoredSound, StoresSafely, IdentityKept, SafeToBuild, WriteInputData, StoredOk, NextMetadata,
         QuietStart;
    SeedIsReadable(w, f);
    CallStores(o, w, f);
    GuardOfTheBuild(w, f, removal);
    UnsafeBuildBreaks(w.secrets, dir, name, ConfigFor(NextMetadata(w, f), w.deployments[name], f.configRest), removal);
  }

  /**
   If the removal of the previous directory ends like this, no failure can make a call spoil a stored identity, if and
   only if the call is safe.
   */
  lemma CallIsSafeIff(o: Options, w: World, removal: Removal)
    requires StoredSound(w)
    ensures (forall f: MainFaults :: f.build.removal == removal ==> IdentityStep(w, MainReconcile(o, w, f).w))
            <==> SafeCall(w, removal)
  {
    hide MainReconcile, StoredSound, StoresSafely, ReachesBuild;
    if SafeCall(w, removal) {
      forall f: MainFaults | f.build.removal == removal ensures IdentityStep(w, MainReconcile(o, w, f).w) {
        MainKeepsIdentity(o, w, f);
      }
    } else {
      assert w.install.Some? && w.install.value.spec.deployment.Some? by { NamesDeployment(w); }
      var i := w.install.value;
      var f := QuietCall(removal, NewGeneration(AfterRemoval(Present(DirOf(w, i.uid)), removal)));
      assert f.build.removal == removal;
      UnguardedCallBreaks(o, w, removal);
      StepIsKept(w, MainReconcile(o, w, f).w, i.spec.deployment.value);
    }
  }

  /** Safe however the removal ends: what it may leave behind is nothing that could be mixed in. */
  ghost predicate SafeInAnyCase(w: World) {
    ReachesBuild(w) ==>
      var i := w.install.value;
      var name, dir := i.spec.deployment.value, Present(DirOf(w, i.uid));
      if Built(dir) || IdentityOf(w.secrets, name).Some? then StoresSafely(w, Removed)
      else dir.kubeconfig.None? && dir.password.None? && (dir.manifest.None? || dir.manifest == Some(Empty))
  }

  lemma SafeRemainsAlways(d: WorkDir)
    ensures (forall r :: SafeRemains(AfterRemoval(d, r))) <==>
              d.kubeconfig.None? && d.password.None? && (d.manifest.None? || d.manifest == Some(Empty))
  {
    if d.kubeconfig.Some? {
      assert !SafeRemains(AfterRemoval(d, Kept(false, true, false, false)));
    } else if d.password.Some? {
      assert !SafeRemains(AfterRemoval(d, Kept(false, false, true, false)));
    } else if d.manifest.Some? && d.manifest != Some(Empty) {
      assert !SafeRemains(AfterRemoval(d, Kept(false, false, false, true)));
    }
  }

  lemma SafeInAnyCaseIff(w: World)
    ensures SafeInAnyCase(w) <==> forall r :: SafeCall(w, r)
  {
    hide AfterRemoval, SafeRemains, SafeToStore, HostPasses;
    if ReachesBuild(w) {
      var i := w.install.value;
      var name, dir := i.spec.deployment.value, Present(DirOf(w, i.uid));
      if Built(dir) || IdentityOf(w.secrets, name).Some? {
        forall r ensures StoresSafely(w, r) <==> StoresSafely(w, Removed) {
        }
        assert SafeCall(w, Removed) <==> StoresSafely(w, Removed);
      } else {
        forall r ensures SafeCall(w, r) <==> SafeRemains(AfterRemoval(dir, r)) {
        }
        SafeRemainsAlways(dir);
      }
    }
  }

  /**
   In every state, reachable or not, whose stored identities are sound: nothing that can happen inside a call makes it
   spoil one of them, if and only if the state before the call says so. Either a call does not get as far as the image;
   or a complete image carries the identity stored for the named deployment, or is sound where none is stored; or the
   identity that would be rebuilt fits the metadata; or nothing is there that a new identity could be mixed with.
   */
  lemma IdentitySurvivesIff(o: Options, w: World)
    requires StoredSound(w)
    ensures (forall f: MainFaults :: IdentityStep(w, MainReconcile(o, w, f).w)) <==> SafeInAnyCase(w)
  {
    hide MainReconcile, StoredSound, IdentityStep, SafeCall, SafeInAnyCase;
    SafeInAnyCaseIff(w);
    if SafeInAnyCase(w) {
      forall f: MainFaults ensures IdentityStep(w, MainReconcile(o, w, f).w) {
        assert SafeCall(w, f.build.removal);
        MainKeepsIdentity(o, w, f);
      }
    } else {
      var r :| !SafeCall(w, r);
      CallIsSafeIff(o, w, r);
    }
  }

  lemma NamesDeployment(w: World)
    requires ReachesBuild(w)
    ensures DeploymentExists(w)
  {
  }

  lemma StepIsKept(w: World, v: World, n: string)
    ensures IdentityStep(w, v) ==> IdentityKept(w.secrets, v.secrets, n)
  {
    hide StoredOk, SameIdentity;
  }

  /** For one undisturbed call, cooled down or not: a complete identity survives if and only if the guard holds. */
  lemma CallKeepsIdentityIff(o: Options, w: World, f: MainFaults)
    requires ReachesBuild(w) && StoredSound(w) && QuietStart(f)
    requires f.build == QuietBuild(f.build.removal, Success(f.build.installer.generation))
    requires IdentityOf(w.secrets, w.install.value.spec.deployment.value).Some?
    ensures var name := w.install.value.spec.deployment.value;
      SameIdentity(w.secrets, MainReconcile(o, w, f).w.secrets, name) <==> StoresSafely(w, f.build.removal)
  {
    var i := w.install.value;
    var name, dir := i.spec.deployment.value, DirOf(w, i.uid);
    assert StoredOk(w.secrets, name);
    hide MainReconcile, StoredSound, StoresSafely, NextMetadata, QuietStart, ReachesBuild;
    NamesDeployment(w);
    SeedIsReadable(w, f);
    CallStores(o, w, f);
    GuardOfTheBuild(w, f, f.build.removal);
    var c := ConfigFor(NextMetadata(w, f), w.deployments[name], f.configRest);
    NextIsComplete(w, f);
    QuietBuildKeepsIff(w.secrets, dir, name, c, f.build);
  }

  lemma NextIsComplete(w: World, f: MainFaults)
    requires DeploymentExists(w) && NextMetadata(w, f).Some?
    ensures NextMetadata(w, f).value.clusterId != "" && NextMetadata(w, f).value.infraId != ""
  {
    hide NewMetadata;
  }

  lemma QuietBuildKeepsIff(s: Secrets, dir: Option<WorkDir>, name: string, c: Config, f: BuildFaults)
    requires StoredOk(s, name) && IdentityOf(s, name).Some? && c.clusterId != "" && c.infraId != ""
    requires f == QuietBuild(f.removal, Success(f.installer.generation))
    ensures var t := WriteInputData(s, dir, name, c, f).secrets;
            SameIdentity(s, t, name) <==> SafeToBuild(s, dir, name, c, f.removal)
  {
    hide WriteInputData, Content, KernelOf;
    var id := IdentityOf(s, name).value;
    CoherentSeed(id);
    if Built(Present(dir)) || ValidForReinstall(c, id.seed.manifest) {
      QuietBuildStores(s, dir, name, c, f.removal, f.installer.generation);
      StoredIdentitySurvivesIff(s, dir, name, c, f);
    } else {
      SafeBuildKeepsIdentity(s, dir, name, c, f);
    }
  }

  // ------------------------------------------------- the image of a start

  lemma StartIsActive(o: Options, w: World, f: MainFaults)
    requires w.install.Some? && MainReconcile(o, w, f).w.install.Some? && NewlyStarted(w, MainReconcile(o, w, f).w)
    ensures MainReconcile(o, w, f) == Active(o, w, f) && !InstallationCompleted(w.install.value)
  {
    hide Finalize, Active, PostCleanup, ImagesShrink, Find;
    FinalizeEffect(w, f);
    if InstallationCompleted(w.install.value) {
      CompletedIsCleanedUp(o, w, f);
      PostCleanupEffect(w, f);
    }
  }

  lemma BuiltImage(w: World, v: World, d: Option<ClusterDeployment>, f: MainFaults)
    requires w.install.Some? && v.install.Some? && v.install.value.uid == w.install.value.uid && Found(w, d)
    requires BuildOutcome(w, v, d, f) && NewlyStarted(w, v)
    ensures var uid := w.install.value.uid;
      && d.Some? && ImageStored(v, uid, w.install.value.spec.deployment.value)
      && if ImageReady(w, uid) then v.dirs[uid] == w.dirs[uid] else v.dirs[uid].iso == v.dirs[uid].manifest
  {
    hide WriteInputData, MetadataComplete, Mirrors;
    var u := w.(install := v.install);
    var uid, name := w.install.value.uid, w.install.value.spec.deployment.value;
    var c := ConfigFor(v.install.value.spec.metadata, d.value, f.configRest);
    BuildDoneMirrors(w.secrets, DirOf(w, uid), name, c, f.build);
    BuildDoneImage(w.secrets, DirOf(w, uid), name, c, f.build);
    assert BuildFor(u, name, d.value, f) == WriteInputData(w.secrets, DirOf(w, uid), name, c, f.build);
  }

  /**
   Image and identity files are stored; the identity is of one generation; and the image carries it exactly when an
   image that was there before agreed with the manifest beside it.
   */
  ghost predicate StoredStart(w: World, v: World) {
    && DeploymentExists(w) && ImageStored(v, w.install.value.uid, w.install.value.spec.deployment.value)
    && var uid := w.install.value.uid;
       var id := IdentityOf(v.secrets, w.install.value.spec.deployment.value);
       && (id.Some? <==> v.dirs[uid].manifest != Some(Empty))
       && (id.Some? ==>
             && Coherent(id.value)
             && (SameKernel(v.dirs[uid].iso.value, id.value.seed) <==>
                 (ImageReady(w, uid) ==> SameKernel(w.dirs[uid].iso.value, w.dirs[uid].manifest.value))))
  }

  lemma StoredStartHolds(w: World, v: World)
    requires DeploymentExists(w) && ImageStored(v, w.install.value.uid, w.install.value.spec.deployment.value)
    requires StoredOk(v.secrets, w.install.value.spec.deployment.value)
    requires var uid := w.install.value.uid;
             if ImageReady(w, uid) then v.dirs[uid] == w.dirs[uid] else v.dirs[uid].iso == v.dirs[uid].manifest
    ensures StoredStart(w, v)
  {
  }

  /** Every guarded call that starts an installation ends in such a state. */
  lemma StartedImageCarriesIff(o: Options, w: World, f: MainFaults)
    requires StoredSound(w) && SafeCall(w, f.build.removal)
    requires w.install.Some? && MainReconcile(o, w, f).w.install.Some? && NewlyStarted(w, MainReconcile(o, w, f).w)
    ensures StoredStart(w, MainReconcile(o, w, f).w)
  {
    StartIsActive(o, w, f);
    OnlyBuildsStore(o, w, f);
    var v := Active(o, w, f).w;
    hide MainReconcile, Active, ReachesBuild, StoresSafely, BuildOutcome, MetadataOutcome, ActiveStep, StoredOk,
         SameIdentity, ImageStored, StoredStart, InstallationCompleted;
    ActiveKeepsIdentity(o, w, f);
    ActiveEffect(o, w, f);
    ActiveIdentity(o, w, f);
    SameUid(o, w, v);
    BuiltImage(w, v, LookUpDeployment(w, f), f);
    StoredStartHolds(w, v);
  }

  lemma BuiltImageEmbeds(w: World, v: World, d: ClusterDeployment, f: MainFaults)
    requires w.install.Some? && v.install.Some? && v.install.value.uid == w.install.value.uid && Found(w, Some(d))
    requires BuildOutcome(w, v, Some(d), f) && NewlyStarted(w, v) && !ImageReady(w, w.install.value.uid)
    requires && w.install.value.spec.deployment.Some?
             && (|| IdentityOf(w.secrets, w.install.value.spec.deployment.value).Some?
                 || AfterRemoval(Present(DirOf(w, w.install.value.uid)), f.build.removal).manifest.None?)
    ensures var uid := w.install.value.uid;
      uid in v.dirs && v.install.value.spec.metadata.Some?
      && EmbedsConfig(v.dirs[uid], v.install.value.spec.metadata.value, d, f.configRest)
  {
    hide WriteInputData, IdentityOf;
    var u := w.(install := v.install);
    var uid, name := w.install.value.uid, w.install.value.spec.deployment.value;
    var c := ConfigFor(v.install.value.spec.metadata, d, f.configRest);
    assert BuildFor(u, name, d, f) == WriteInputData(w.secrets, DirOf(w, uid), name, c, f.build);
    BuildDoneImage(w.secrets, DirOf(w, uid), name, c, f.build);
    NewImageEmbedsConfig(w.secrets, DirOf(w, uid), name, c, f.build);
  }

  /** The image is made for this metadata, this deployment and this configuration. */
  predicate EmbedsConfig(dir: WorkDir, m: Metadata, d: ClusterDeployment, rest: nat) {
    && dir.iso.Some? && dir.iso.value.ManifestOf?
    && var x := dir.iso.value.manifest;
       && x.clusterId == m.clusterId && x.infraId == m.infraId
       && x.baseDomain == d.baseDomain && x.clusterName == d.clusterName && x.rest == rest
  }

  /**
   A start for which the image was made in this very call, whatever fails and whatever guard is met: the image embeds
   the IDs of the stored metadata, the base domain and cluster name of the deployment, and the present configuration.
   */
  lemma StartedImageEmbedsConfig(o: Options, w: World, f: MainFaults)
    requires w.install.Some? && MainReconcile(o, w, f).w.install.Some? && NewlyStarted(w, MainReconcile(o, w, f).w)
    requires !ImageReady(w, w.install.value.uid) && w.install.value.spec.deployment.Some?
    requires || IdentityOf(w.secrets, w.install.value.spec.deployment.value).Some?
             || AfterRemoval(Present(DirOf(w, w.install.value.uid)), f.build.removal).manifest.None?
    ensures var v := MainReconcile(o, w, f).w;
            var uid, name := w.install.value.uid, w.install.value.spec.deployment.value;
      && name in w.deployments && uid in v.dirs && v.install.value.spec.metadata.Some?
      && EmbedsConfig(v.dirs[uid], v.install.value.spec.metadata.value, w.deployments[name], f.configRest)
  {
    StartIsActive(o, w, f);
    var v := Active(o, w, f).w;
    hide MainReconcile, Active, MetadataOutcome, ActiveStep, EmbedsConfig, InstallationCompleted, ImageReady,
         IdentityOf, AfterRemoval;
    ActiveEffect(o, w, f);
    ActiveIdentity(o, w, f);
    SameUid(o, w, v);
    assert LookUpDeployment(w, f).Some? by { hide BuildFor, MetadataComplete; }
    BuiltImageEmbeds(w, v, LookUpDeployment(w, f).value, f);
  }

  lemma SameUid(o: Options, w: World, v: World)
    requires ActiveStep(o, w, v)
    ensures v.install.value.uid == w.install.value.uid
  {
    CoreFields(w.install.value, v.install.value);
  }
}
