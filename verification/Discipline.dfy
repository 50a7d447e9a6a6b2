/**
 A way to live that never meets an unguarded call: the deployment reference is edited only while there is no metadata,
 restored metadata fits the stored secrets, and removals leave nothing harmful behind. In such runs secrets, metadata
 and working directory fit together in every state. And one input outside of it, on which the identity is lost.
 */
module Discipline {
  import opened Base
  import opened Credentials
  import opened ImageBuild
  import opened BuildSafety
  import opened MachineNetworks
  import opened Hub
  import opened DataImages
  import opened MainReconciler
  import opened MainEffects
  import opened Monitor
  import opened MonitorEffects
  import opened Safety
  import opened Webhook
  import opened System
  import opened Identity
  import InfraId

  // --------------------------------------------------------- the invariant

  predicate NoFiles(dir: Option<WorkDir>) {
    dir.None? || dir.value == EMPTY_DIR
  }

  /** Metadata, secrets and working directory of an installation fit together. */
  ghost predicate Identified(s: Secrets, dir: Option<WorkDir>, spec: Spec) {
    match spec.metadata
    case None => NoFiles(dir)
    case Some(m) =>
      && spec.deployment.Some?
      && MetadataComplete(spec.metadata, spec.deployment.value)
      && Consistent(s, dir, spec.deployment.value, m.clusterId, m.infraId)
  }

  /** The installation's part of the invariant. */
  ghost predicate Fitting(w: World) {
    && (w.install.Some? ==>
          && w.install.value.uid in w.uids
          && Identified(w.secrets, DirOf(w, w.install.value.uid), w.install.value.spec))
    && w.dirs.Keys <= w.uids
  }

  ghost predicate InOrder(w: World) {
    StoredSound(w) && Fitting(w)
  }

  ghost predicate Disciplined(w: World, e: Event) {
    match e
    case Main(f) =>
      ReachesBuild(w) && w.install.value.spec.metadata.Some? ==>
        var spec := w.install.value.spec;
        CleanStart(w.secrets, DirOf(w, w.install.value.uid), spec.deployment.value,
                   spec.metadata.value.clusterId, spec.metadata.value.infraId, f.build.removal)
    case EditSpec(s) =>
      w.install.Some? && w.install.value.spec.metadata.Some? ==> s.deployment == w.install.value.spec.deployment
    case RestoreObject(i) =>
      i.spec.metadata.Some? ==>
        && i.spec.deployment.Some?
        && MetadataComplete(i.spec.metadata, i.spec.deployment.value)
        && var id := IdentityOf(w.secrets, i.spec.deployment.value);
           (id.Some? && id.value.seed.ManifestOf? ==>
              && id.value.seed.manifest.clusterId == i.spec.metadata.value.clusterId
              && id.value.seed.manifest.infraId == i.spec.metadata.value.infraId)
    case _ => true
  }

  ghost predicate DisciplinedRun(o: Options, w: World, run: seq<Event>)
    decreases |run|
  {
    run == [] || (Enabled(w, run[0]) && Disciplined(w, run[0]) && DisciplinedRun(o, Apply(o, w, run[0]), run[1..]))
  }

  // ------------------------------------------------------- order is guarded

  lemma ConsistentIsSafe(s: Secrets, dir: Option<WorkDir>, name: string, clusterId: string, infraId: string,
                         removal: Removal)
    requires Consistent(s, dir, name, clusterId, infraId) && clusterId != "" && infraId != ""
    requires CleanStart(s, dir, name, clusterId, infraId, removal)
    ensures PresentAndBuilt(dir) ==> SafeToStore(s, dir.value, name)
    ensures !PresentAndBuilt(dir) && IdentityOf(s, name).None? ==> SafeRemains(AfterRemoval(Present(dir), removal))
  {
  }

  /** In order and disciplined, every call is guarded. */
  lemma OrderIsGuarded(w: World, f: MainFaults)
    requires InOrder(w) && Disciplined(w, Main(f))
    ensures SafeCall(w, f.build.removal)
  {
    hide StoredOk, SafeToStore, SafeRemains, AfterRemoval, HostPasses;
    if ReachesBuild(w) {
      var i := w.install.value;
      var name, dir := i.spec.deployment.value, DirOf(w, i.uid);
      if i.spec.metadata.Some? {
        var m := i.spec.metadata.value;
        ConsistentIsSafe(w.secrets, dir, name, m.clusterId, m.infraId, f.build.removal);
      } else {
        NothingIsSafe(f.build.removal);
      }
    }
  }

  lemma NothingIsSafe(removal: Removal)
    ensures AfterRemoval(EMPTY_DIR, removal) == EMPTY_DIR && SafeRemains(EMPTY_DIR)
  {
  }

  // ---------------------------------------------------------- one call

  /** New metadata takes its IDs from a stored seed, so it fits whatever identity is stored. */
  lemma NewMetadataFits(s: Secrets, dir: Option<WorkDir>, name: string, clusterName: string, f: MainFaults)
    requires StoredOk(s, name) && NoFiles(dir)
    requires NewMetadata(None, s, name, clusterName, f).Some?
    ensures var m := NewMetadata(None, s, name, clusterName, f).value; Consistent(s, dir, name, m.clusterId, m.infraId)
    ensures MetadataComplete(NewMetadata(None, s, name, clusterName, f), name)
  {
    hide InfraId.Generate;
  }

  lemma MetadataFits(w: World, v: World, d: Option<ClusterDeployment>, f: MainFaults)
    requires InOrder(w) && w.install.Some? && v.install.Some?
    requires d.Some? ==> w.install.value.spec.deployment.Some?
    requires MetadataOutcome(w, v, d, f) && UserSpec(v.install.value.spec) == UserSpec(w.install.value.spec)
    ensures Identified(w.secrets, DirOf(w, w.install.value.uid), v.install.value.spec)
  {
    hide MetadataComplete, Consistent, NoFiles, StoredOk, NewMetadata;
    var before, after := w.install.value.spec, v.install.value.spec;
    assert after.deployment == before.deployment;
    if after.metadata != before.metadata {
      var name := before.deployment.value;
      assert before.metadata.None? && StoredOk(w.secrets, name);
      NewMetadataFits(w.secrets, DirOf(w, w.install.value.uid), name, d.value.clusterName, f);
    } else {
      assert after == before by { SameSpec(before, after); }
    }
  }

  lemma SameSpec(a: Spec, b: Spec)
    requires UserSpec(a) == UserSpec(b) && a.metadata == b.metadata
    ensures a == b
  {
  }

  lemma CleanForBuild(w: World, v: World, f: MainFaults)
    requires InOrder(w) && Disciplined(w, Main(f)) && ReachesBuild(w) && v.install.Some?
    requires v.install.value.spec.metadata.Some?
    requires w.install.value.spec.metadata.Some? ==> v.install.value.spec.metadata == w.install.value.spec.metadata
    ensures var m := v.install.value.spec.metadata.value;
      CleanStart(w.secrets, DirOf(w, w.install.value.uid), w.install.value.spec.deployment.value,
                 m.clusterId, m.infraId, f.build.removal)
  {
    hide Consistent, Coherent, HostPasses;
  }

  lemma BuildOutcomeFits(w: World, v: World, d: Option<ClusterDeployment>, f: MainFaults)
    requires w.install.Some? && v.install.Some? && Found(w, d)
    requires Identified(w.secrets, DirOf(w, w.install.value.uid), v.install.value.spec)
    requires v.install.value.spec.deployment == w.install.value.spec.deployment
    requires v.install.value.uid == w.install.value.uid
    requires BuildOutcome(w, v, d, f)
    requires d.Some? && v.install.value.spec.metadata.Some? && HasBuilt(w, v) ==>
               var m := v.install.value.spec.metadata.value;
               CleanStart(w.secrets, DirOf(w, w.install.value.uid), w.install.value.spec.deployment.value,
                          m.clusterId, m.infraId, f.build.removal)
    ensures Identified(v.secrets, DirOf(v, v.install.value.uid), v.install.value.spec)
  {
    hide WriteInputData, Consistent, CleanStart;
    if v.secrets != w.secrets || v.dirs != w.dirs {
      var name := w.install.value.spec.deployment.value;
      var u := w.(install := v.install);
      var c := ConfigFor(v.install.value.spec.metadata, d.value, f.configRest);
      BuildKeepsConsistent(w.secrets, DirOf(w, w.install.value.uid), name, c, f.build);
      var dir := DirOf(w, w.install.value.uid);
      assert BuildFor(u, name, d.value, f) == WriteInputData(w.secrets, dir, name, c, f.build);
    }
  }

  lemma ActiveKeepsFitting(o: Options, w: World, f: MainFaults)
    requires InOrder(w) && w.install.Some? && !InstallationCompleted(w.install.value)
    requires !w.install.value.deleting && w.install.value.finalizer
    requires Disciplined(w, Main(f))
    ensures Fitting(Active(o, w, f).w)
  {
    hide Acceptable, BeingRestored, ImageReady, Active, Consistent, CleanStart, StoredOk, BuildOutcome, Core,
         Identified, Disciplined, SameProgress, Filled, StillReported, SaysMet, BootKept, NewBoot, ImagesStep,
         NewMetadata;
    var v := Active(o, w, f).w;
    var d := LookUpDeployment(w, f);
    ActiveEffect(o, w, f);
    ActiveIdentity(o, w, f);
    CoreFields(w.install.value, v.install.value);
    MetadataFits(w, v, d, f);
    if d.Some? && v.install.value.spec.metadata.Some? && HasBuilt(w, v) {
      ActiveBuilt(o, w, f);
      if w.install.value.spec.metadata.Some? {
        OrderIsComplete(w);
      }
      CleanForBuild(w, v, f);
    }
    BuildOutcomeFits(w, v, d, f);
  }

  lemma OrderIsComplete(w: World)
    requires InOrder(w) && w.install.Some? && w.install.value.spec.metadata.Some?
    ensures w.install.value.spec.deployment.Some?
    ensures MetadataComplete(w.install.value.spec.metadata, w.install.value.spec.deployment.value)
  {
  }

  // ------------------------------------------------------------- any step

  /** Nothing in the second directory that was not in the first. */
  predicate NothingNew(a: Option<WorkDir>, b: Option<WorkDir>) {
    b.Some? ==>
      var d := Present(a);
      && (b.value.iso.None? || b.value.iso == d.iso)
      && (b.value.kubeconfig.None? || b.value.kubeconfig == d.kubeconfig)
      && (b.value.password.None? || b.value.password == d.password)
      && (b.value.manifest.None? || b.value.manifest == d.manifest)
  }

  lemma LosingFilesKeepsIdentified(s: Secrets, a: Option<WorkDir>, b: Option<WorkDir>, spec: Spec)
    requires Identified(s, a, spec) && NothingNew(a, b)
    ensures Identified(s, b, spec)
  {
    hide Coherent;
    if spec.metadata.None? && b.Some? {
      assert b.value == WorkDir(b.value.iso, b.value.kubeconfig, b.value.password, b.value.manifest);
    }
    if PresentAndBuilt(b) && a.Some? {
      assert a.value == WorkDir(a.value.iso, a.value.kubeconfig, a.value.password, a.value.manifest);
      assert b.value == WorkDir(b.value.iso, b.value.kubeconfig, b.value.password, b.value.manifest);
    }
  }

  /** Secrets stay, and the installation, if it stays, keeps its identity fields and gains no files. */
  predicate IdentityFrame(w: World, v: World) {
    && v.secrets == w.secrets && v.uids == w.uids && v.dirs.Keys <= v.uids
    && (v.install.Some? ==>
          && w.install.Some?
          && v.install.value.uid == w.install.value.uid
          && v.install.value.spec.metadata == w.install.value.spec.metadata
          && (v.install.value.spec.metadata.Some? ==>
                v.install.value.spec.deployment == w.install.value.spec.deployment)
          && NothingNew(DirOf(w, w.install.value.uid), DirOf(v, w.install.value.uid)))
  }

  lemma FrameKeepsFitting(w: World, v: World)
    requires Fitting(w) && IdentityFrame(w, v)
    ensures Fitting(v)
  {
    hide Consistent, MetadataComplete, NothingNew, NoFiles;
    if v.install.Some? {
      var i := w.install.value;
      LosingFilesKeepsIdentified(w.secrets, DirOf(w, i.uid), DirOf(v, i.uid), i.spec);
    }
  }

  lemma SameFiles(a: Option<WorkDir>)
    ensures NothingNew(a, a) && NothingNew(a, None)
  {
  }

  lemma RemovalAddsNothing(a: Option<WorkDir>, r: Removal)
    ensures NothingNew(a, Some(Present(a))) && NothingNew(a, Some(AfterRemoval(Present(a), r)))
  {
  }

  lemma FinalizeFiles(w: World, f: MainFaults)
    requires w.install.Some?
    ensures NothingNew(DirOf(w, w.install.value.uid), DirOf(Finalize(w, f).w, w.install.value.uid))
  {
    hide Release, NothingNew, AfterRemoval;
    var uid := w.install.value.uid;
    SameFiles(DirOf(w, uid));
    RemovalAddsNothing(DirOf(w, uid), f.removal);
    ReleaseEffect(w.(dirs := w.dirs - {uid}), f);
  }

  lemma FinalizeFrame(w: World, f: MainFaults)
    requires w.install.Some? && w.install.value.uid in w.uids && w.dirs.Keys <= w.uids
    ensures IdentityFrame(w, Finalize(w, f).w)
  {
    hide Finalize, NothingNew, ImagesShrink;
    FinalizeEffect(w, f);
    FinalizeFiles(w, f);
  }

  lemma PostCleanupFrame(w: World, f: MainFaults)
    requires w.install.Some? && w.dirs.Keys <= w.uids
    ensures IdentityFrame(w, PostCleanup(w, f).w)
  {
    hide RemoveDataImage, NothingNew;
    SameFiles(DirOf(w, w.install.value.uid));
  }

  lemma FinalizeKeepsFitting(w: World, f: MainFaults)
    requires Fitting(w) && w.install.Some?
    ensures Fitting(Finalize(w, f).w)
  {
    hide Finalize, Identified, IdentityFrame;
    FinalizeFrame(w, f);
    FrameKeepsFitting(w, Finalize(w, f).w);
  }

  lemma PostCleanupKeepsFitting(w: World, f: MainFaults)
    requires Fitting(w) && w.install.Some?
    ensures Fitting(PostCleanup(w, f).w)
  {
    hide PostCleanup, Identified, IdentityFrame;
    PostCleanupFrame(w, f);
    FrameKeepsFitting(w, PostCleanup(w, f).w);
  }

  lemma FinalizerKeepsFitting(w: World)
    requires Fitting(w) && w.install.Some?
    ensures Fitting(w.(install := Some(w.install.value.(finalizer := true))))
  {
    hide Identified;
  }

  lemma MainKeepsFitting(o: Options, w: World, f: MainFaults)
    requires InOrder(w) && Disciplined(w, Main(f))
    ensures Fitting(MainReconcile(o, w, f).w)
  {
    hide Finalize, Active, PostCleanup, Fitting, StoredSound, Disciplined, InstallationCompleted;
    if w.install.Some? {
      FinalizeKeepsFitting(w, f);
      FinalizerKeepsFitting(w);
      if InstallationCompleted(w.install.value) {
        CompletedIsCleanedUp(o, w, f);
        PostCleanupKeepsFitting(w, f);
      } else if !w.install.value.deleting && w.install.value.finalizer {
        ActiveKeepsFitting(o, w, f);
      }
    }
  }

  lemma MonitorKeepsFitting(o: Options, w: World, f: MonitorFaults)
    requires Fitting(w)
    ensures Fitting(MonitorReconcile(o, w, f).w)
  {
    hide Identified, Recordable;
    if w.install.Some? {
      hide MonitorReconcile;
      MonitorEffect(o, w, f);
      FrameKeepsFitting(w, MonitorReconcile(o, w, f).w);
    }
  }

  /** A new object has no files yet, and brings no metadata or metadata that fits. */
  lemma NewObjectFits(w: World, i: Install)
    requires InOrder(w) && i.uid !in w.uids
    requires i.spec.metadata.None? || Disciplined(w, RestoreObject(i))
    ensures Fitting(w.(install := Some(i), uids := w.uids + {i.uid}))
  {
    var v := w.(install := Some(i), uids := w.uids + {i.uid});
    assert DirOf(v, i.uid).None?;
    if i.spec.metadata.Some? {
      assert StoredOk(w.secrets, i.spec.deployment.value);
      assert Identified(w.secrets, None, i.spec);
    }
  }

  lemma EnvironmentFrame(o: Options, w: World, e: Event)
    requires w.dirs.Keys <= w.uids && Enabled(w, e) && Disciplined(w, e)
    requires !e.Main? && !e.Watch? && !e.Create? && !e.RestoreObject?
    ensures IdentityFrame(w, Apply(o, w, e))
  {
    hide ValidateUpdate, ImagesOnlyRemoved, MainReconcile, MonitorReconcile, NothingNew;
    if w.install.Some? {
      var dir := DirOf(w, w.install.value.uid);
      var after := DirOf(Apply(o, w, e), w.install.value.uid);
      SameFiles(dir);
      assert after == dir || after == None;
    }
  }

  lemma EnvironmentKeepsFitting(o: Options, w: World, e: Event)
    requires InOrder(w) && Enabled(w, e) && Disciplined(w, e) && !e.Main? && !e.Watch?
    ensures Fitting(Apply(o, w, e))
  {
    hide Identified, IdentityFrame, Disciplined, ValidateCreate, ValidateUpdate, ImagesOnlyRemoved, MainReconcile,
         MonitorReconcile, Fitting;
    match e {
      case Create(i) => NewObjectFits(w, i);
      case RestoreObject(i) => NewObjectFits(w, i);
      case _ =>
        FittingDirs(w);
        EnvironmentFrame(o, w, e);
        FrameKeepsFitting(w, Apply(o, w, e));
    }
  }

  lemma FittingDirs(w: World)
    requires Fitting(w)
    ensures w.dirs.Keys <= w.uids
  {
  }

  lemma StepKeepsOrder(o: Options, w: World, e: Event)
    requires InOrder(w) && Enabled(w, e) && Disciplined(w, e)
    ensures Guarded(w, e) && InOrder(Apply(o, w, e))
  {
    hide StoredSound, Fitting, MainReconcile, MonitorReconcile, Disciplined, SafeCall;
    match e {
      case Main(f) =>
        OrderIsGuarded(w, f);
        MainKeepsFitting(o, w, f);
      case Watch(f) => MonitorKeepsFitting(o, w, f);
      case _ => EnvironmentKeepsFitting(o, w, e);
    }
    StepKeepsIdentity(o, w, e);
  }

  // ------------------------------------------------------------------ runs

  /** Nothing stored, nothing on disk: all is in order before the first object is created. */
  lemma FirstOrder(w: World)
    requires Initial(w) && w.secrets == map[]
    ensures InOrder(w)
  {
  }

  /** Every disciplined run is guarded, and stays in order. */
  lemma {:induction false} DisciplinedRunIsGuarded(o: Options, w: World, run: seq<Event>)
    requires InOrder(w) && DisciplinedRun(o, w, run)
    ensures GuardedRun(o, w, run) && InOrder(After(o, w, run))
    decreases |run|
  {
    hide InOrder, Apply, Enabled, Disciplined, Guarded;
    if run != [] {
      StepKeepsOrder(o, w, run[0]);
      DisciplinedRunIsGuarded(o, Apply(o, w, run[0]), run[1..]);
    }
  }

  /**
   In every state of such a run an image on disk carries the stored identity: its crypto, its password hash, its IDs,
   and the base domain and cluster name it was first generated under.
   */
  lemma ImageCarriesTheIdentity(o: Options, w: World, run: seq<Event>)
    requires InOrder(w) && DisciplinedRun(o, w, run)
    ensures var v := After(o, w, run);
      v.install.Some? ==>
        var i := v.install.value;
        var dir := DirOf(v, i.uid);
        && (dir.Some? && dir.value.iso.Some? ==> i.spec.metadata.Some?)
        && (i.spec.metadata.Some? ==>
              && i.spec.deployment.Some?
              && var id := IdentityOf(v.secrets, i.spec.deployment.value);
                 id.Some? ==>
                   && Coherent(id.value)
                   && id.value.seed.manifest.clusterId == i.spec.metadata.value.clusterId
                   && id.value.seed.manifest.infraId == i.spec.metadata.value.infraId
                   && (dir.Some? && dir.value.iso.Some? ==> SameKernel(dir.value.iso.value, id.value.seed)))
  {
    hide DisciplinedRun, GuardedRun, StoredSound, Coherent;
    DisciplinedRunIsGuarded(o, w, run);
  }

  // ---------------------------------------------------------- at one input

  const REF := HostRef("host", "ns")

  const PLAIN_HOST := Host(false, false, false, true, false, false, Available, None, false)

  const METADATA_A := Metadata("id-a", "infra-a", KubeconfigName("a"), Some(PasswordName("a")))

  /** An installation that has metadata of deployment a, on a host that is taken as it is. */
  const SPEC_A := Spec(Some("a"), Some(REF), Some(METADATA_A),
                       Cidr("", None), [], false, true, true, 0)

  const SPEC_B := SPEC_A.(deployment := Some("b"))

  const INSTALL_A := Install("ns", "uid", false, true, false, false, false, false, NotSet, SPEC_A, EMPTY_STATUS)

  /** Deployment b has a complete identity of generation 1 under its own IDs. */
  const SECRETS_B: Secrets := map[
    SecretName(AdminKubeconfig, "b") := Some(KubeconfigOf(1)),
    SecretName(AdminPassword, "b") := Some(PasswordOf(1)),
    SecretName(SeedReconfiguration, "b") := Some(ManifestOf(Manifest(1, 1, "id-b", "infra-b", "example.com", "b", 0)))]

  const BEFORE_EDIT := World(0, Some(INSTALL_A), map[REF := PLAIN_HOST], map[],
                             map["b" := ClusterDeployment("b", "example.com")], SECRETS_B, map[], {"uid"})

  const AFTER_EDIT := BEFORE_EDIT.(install := Some(INSTALL_A.(spec := SPEC_B)))

  lemma SecretsOfBAreSound()
    ensures IdentityOf(SECRETS_B, "b").Some? && forall n :: StoredOk(SECRETS_B, n)
  {
    forall n ensures StoredOk(SECRETS_B, n) {
      if n == "b" {
        assert PartsOf(IdentityOf(SECRETS_B, "b").value, 1);
      }
    }
  }

  lemma BeforeEditIsInOrder()
    ensures InOrder(BEFORE_EDIT) && Enabled(BEFORE_EDIT, EditSpec(SPEC_B))
  {
    SecretsOfBAreSound();
  }

  lemma AfterEditIsUnguarded()
    ensures ReachesBuild(AFTER_EDIT) && StoredSound(AFTER_EDIT) && !StoresSafely(AFTER_EDIT, Removed)
  {
    SecretsOfBAreSound();
    hide StoredOk;
  }

  /**
   All is in order, and the image has not been built yet. The deployment reference is edited from a to b, which the
   webhook admits, and an undisturbed call follows. It keeps the IDs of a, rebuilds the image of b from the identity
   stored for b, and stores the result: the identity of b has lost its cluster and infra IDs.
   */
  lemma EditedReferenceLosesIdentity(o: Options)
    ensures InOrder(BEFORE_EDIT) && Enabled(BEFORE_EDIT, EditSpec(SPEC_B))
    ensures var run := [EditSpec(SPEC_B), Main(QuietCall(Removed, 2))];
            !SameIdentity(SECRETS_B, After(o, BEFORE_EDIT, run).secrets, "b")
  {
    SecretsOfBAreSound();
    BeforeEditIsInOrder();
    AfterEditIsUnguarded();
    hide StoredOk, StoredSound, InOrder, Enabled, MainReconcile, ReachesBuild, StoresSafely, SameIdentity;
    var call := QuietCall(Removed, 2);
    var run := [EditSpec(SPEC_B), Main(call)];
    assert run[1..] == [Main(call)] && run[1..][1..] == [];
    assert After(o, BEFORE_EDIT, run) == After(o, AFTER_EDIT, [Main(call)]);
    assert After(o, AFTER_EDIT, [Main(call)]) == After(o, MainReconcile(o, AFTER_EDIT, call).w, []);
    CallKeepsIdentityIff(o, AFTER_EDIT, call);
  }

  /** Deleting the edited installation is safe: a call on it removes files and image and builds nothing. */
  lemma DeletionAfterEditIsGuarded(o: Options, f: MainFaults)
    ensures GuardedRun(o, BEFORE_EDIT, [EditSpec(SPEC_B), RequestDeletion, Main(f)])
  {
    BeforeEditIsInOrder();
    hide Enabled, StoresSafely, MainReconcile;
    var run := [EditSpec(SPEC_B), RequestDeletion, Main(f)];
    var gone := AFTER_EDIT.(install := Some(INSTALL_A.(spec := SPEC_B, deleting := true)));
    assert run[1..] == [RequestDeletion, Main(f)] && run[1..][1..] == [Main(f)] && [Main(f)][1..] == [];
    assert Apply(o, AFTER_EDIT, RequestDeletion) == gone;
    assert Enabled(AFTER_EDIT, RequestDeletion) && Enabled(gone, Main(f)) by { AlwaysPossible(f); }
    assert GuardedRun(o, gone, [Main(f)]);
    assert GuardedRun(o, AFTER_EDIT, run[1..]);
  }

  lemma AlwaysPossible(f: MainFaults)
    ensures forall w :: Enabled(w, RequestDeletion) && Enabled(w, Main(f))
  {
  }
}
