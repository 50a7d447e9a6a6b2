/** What one reconcile of the main controller can and cannot change. */
module MainEffects {
  import opened Base
  import opened Conditions
  import opened Credentials
  import opened ImageBuild
  import opened Hub
  import opened MainReconciler
  import opened MachineNetworks

  // ----------------------------------------------------- condition lists

  /** The entries that only the monitor rewrites. */
  predicate SameProgress(a: seq<Condition>, b: seq<Condition>) {
    && Find(a, Completed) == Find(b, Completed)
    && Find(a, Failed) == Find(b, Failed)
    && Find(a, Stopped) == Find(b, Stopped)
  }

  predicate AllReported(list: seq<Condition>) {
    && Find(list, RequirementsMet).Some? && Find(list, Completed).Some?
    && Find(list, Failed).Some? && Find(list, Stopped).Some?
  }

  /** The list in memory and the stored one: same progress entries, same RequirementsMet presence. */
  predicate CondSync(a: seq<Condition>, b: seq<Condition>) {
    SameProgress(a, b) && (Find(a, RequirementsMet).Some? <==> Find(b, RequirementsMet).Some?)
  }

  function OrBlank(c: Option<Condition>, kind: ConditionType, now: int): Option<Condition> {
    if c.None? then Some(Merge(None, Blank(kind), now)) else c
  }

  /** Missing progress entries have been initialised, present ones are as they were. */
  predicate Filled(a: seq<Condition>, b: seq<Condition>, now: int) {
    && Find(b, Completed) == OrBlank(Find(a, Completed), Completed, now)
    && Find(b, Failed) == OrBlank(Find(a, Failed), Failed, now)
    && Find(b, Stopped) == OrBlank(Find(a, Stopped), Stopped, now)
  }

  /** A reported RequirementsMet condition stays reported. */
  predicate StillReported(a: seq<Condition>, b: seq<Condition>) {
    Find(a, RequirementsMet).Some? ==> Find(b, RequirementsMet).Some?
  }

  predicate SaysMet(list: seq<Condition>) {
    HasStatus(list, RequirementsMet, True)
  }

  lemma RecordReportEffect(w: World, list: seq<Condition>, r: Report, fails: bool)
    requires w.install.Some? && CondSync(list, Stored(w))
    ensures var h := RecordReport(w, list, r, fails);
      && h.w == PatchConditions(w, Stored(h.w))
      && SameProgress(Stored(h.w), Stored(w))
      && SameProgress(h.list, Stored(w)) && Find(h.list, RequirementsMet).Some?
      && StillReported(Stored(w), Stored(h.w))
      && (Stored(h.w) == Stored(w) || Stored(h.w) == h.list)
      && StatusOf(h.list, RequirementsMet) == Some(r.status)
  {
    var updated := Set(list, RequirementsMetCondition(r), w.now);
    assert SameProgress(updated, list);
    assert PatchConditions(w, Stored(w)) == w;
  }

  // --------------------------------------------------------- the phases

  /** Everything that must be in place when an installation is recorded as started. */
  predicate ReadyToBoot(o: Options, w: World, name: string) {
    && HostAt(w)
    && w.install.value.spec.deployment == Some(name)
    && name in w.deployments
    && MetadataComplete(w.install.value.spec.metadata, name)
    && ImageStored(w, w.install.value.uid, name)
    && HostPrepared(HostOf(w))
    && HostOf(w).managed
    && RefOf(w) in w.images
    && !w.images[RefOf(w)].terminating
    && w.images[RefOf(w)].created + o.coolDown <= w.now
  }

  /** The metadata refers to the secrets that hold the kubeconfig and the password on disk, by their rendered names. */
  predicate RefersToFiles(w: World, uid: string, name: string) {
    && w.install.Some? && w.install.value.spec.metadata.Some? && uid in w.dirs
    && var m := w.install.value.spec.metadata.value;
       && m.kubeconfigSecret.Own? && m.passwordSecret.Some? && m.passwordSecret.value.Own?
       && var k, p := m.kubeconfigSecret.name, m.passwordSecret.value.name;
          && k in w.secrets && w.secrets[k] == w.dirs[uid].kubeconfig && Render(k) == name + "-admin-kubeconfig"
          && p in w.secrets && w.secrets[p] == w.dirs[uid].password && Render(p) == name + "-admin-password"
  }

  lemma ReadyRefers(o: Options, w: World, name: string)
    requires ReadyToBoot(o, w, name)
    ensures RefersToFiles(w, w.install.value.uid, name)
  {
  }

  /** The image and the auth files exist, and the three secrets equal the files. */
  predicate ImageStored(w: World, uid: string, name: string) {
    ImageReady(w, uid) && Mirrors(w.secrets, name, Files(w.dirs[uid]))
  }

  predicate HostPrepared(h: Host) {
    h.cleaningDisabled && h.externallyProvisioned
  }

  /** The data images afterwards: none is lost, and the only new one belongs to the installation's host. */
  predicate ImagesStep(w: World, v: World)
    requires w.install.Some?
  {
    || v.images == w.images
    || (w.install.value.spec.host.Some? && w.install.value.spec.host.value !in w.images
        && v.images == w.images[w.install.value.spec.host.value := NewImage(w)])
  }

  /** The phases reached their end, or at least recorded the start. */
  predicate Starts(w: World, p: Phase)
    requires w.install.Some? && p.w.install.Some?
  {
    p.Proceed? || (w.install.value.status.host.None? && p.w.install.value.status.host.Some?)
  }

  /** The installation is as it was, or has just been recorded as started. */
  predicate MayStart(w: World, v: World)
    requires w.install.Some? && v.install.Some?
  {
    || v.install == w.install
    || (&& w.install.value.status.host.None? && v.install.value.status.host.Some?
        && v.install == Some(Booted(w.install.value, w.now)))
  }

  lemma RecordBootEffect(w: World, list: seq<Condition>, f: MainFaults)
    requires HostAt(w)
    ensures var p := RecordBoot(w, list, f);
      && MayStart(w, p.w) && HostAt(p.w) && RefOf(p.w) == RefOf(w)
      && (Starts(w, p) ==> p.w.install.value.status.host.Some?)
  {
  }

  lemma BootHostEffect(w: World, list: seq<Condition>, f: MainFaults)
    requires HostAt(w) && RefOf(w) in w.images
    ensures var p := BootHost(w, list, f);
      && p.w == w.(install := p.w.install, hosts := p.w.hosts)
      && MayStart(w, p.w)
      && (p.list == list || p.list == Stored(w))
      && HostAt(p.w) && RefOf(p.w) == RefOf(w)
      && HostOf(p.w).cleaningDisabled == HostOf(w).cleaningDisabled
      && HostOf(p.w).externallyProvisioned == HostOf(w).externallyProvisioned
      && (Starts(w, p) ==> HostOf(p.w).managed && p.w.install.value.status.host.Some?)
  {
    hide UpdateProvisioning, RecordBoot, Booted;
    var b := UpdateProvisioning(w, list, f);
    if b.Proceed? {
      RecordBootEffect(b.w, list, f);
    }
  }

  lemma HostConfigurationEffect(o: Options, w: World, list: seq<Condition>, f: MainFaults)
    requires HostAt(w)
    ensures var p := HostConfiguration(o, w, list, f);
      && p.w == w.(install := p.w.install, hosts := p.w.hosts, images := p.w.images)
      && MayStart(w, p.w)
      && (p.list == list || p.list == Stored(w))
      && ImagesStep(w, p.w)
  {
    hide AttachImage, BootHost;
    var a := AttachImage(o, w, list, f);
    if a.Proceed? {
      BootHostEffect(a.w, list, f);
    }
  }

  /** The part of readiness that attaching and booting leave alone. */
  predicate ReadyToAttach(w: World, name: string) {
    && HostAt(w) && HostPrepared(HostOf(w))
    && MetadataComplete(w.install.value.spec.metadata, name)
    && w.install.value.spec.deployment == Some(name) && name in w.deployments
    && ImageStored(w, w.install.value.uid, name)
  }

  lemma BootHostReady(o: Options, w: World, list: seq<Condition>, name: string, f: MainFaults)
    requires ReadyToAttach(w, name)
    requires RefOf(w) in w.images && !w.images[RefOf(w)].terminating && CooledDown(o, w, RefOf(w))
    requires Starts(w, BootHost(w, list, f))
    ensures var p := BootHost(w, list, f); p.w.install.value.status.host.Some? && ReadyToBoot(o, p.w, name)
  {
    hide Mirrors, MetadataComplete, BootHost;
    BootHostEffect(w, list, f);
  }

  lemma HostConfigurationReady(o: Options, w: World, list: seq<Condition>, name: string, f: MainFaults)
    requires ReadyToAttach(w, name) && Starts(w, HostConfiguration(o, w, list, f))
    ensures var p := HostConfiguration(o, w, list, f);
            p.w.install.value.status.host.Some? && ReadyToBoot(o, p.w, name)
  {
    hide Mirrors, MetadataComplete, AttachImage, BootHost, ReadyToBoot;
    var a := AttachImage(o, w, list, f);
    BootHostReady(o, a.w, list, name, f);
  }

  lemma ImageAndHostEffect(o: Options, w: World, list: seq<Condition>, name: string, d: ClusterDeployment,
                           f: MainFaults)
    requires HostAt(w)
    ensures var p := ImageAndHost(o, w, list, name, d, f);
            var built := AfterBuild(w, BuildFor(w, name, d, f));
      && p.w == built.(install := p.w.install, hosts := p.w.hosts, images := p.w.images)
      && MayStart(w, p.w)
      && (p.list == list || p.list == Stored(w))
      && ImagesStep(w, p.w)
      && (Starts(w, p) ==> BuildFor(w, name, d, f).result == BuildDone)
  {
    hide BuildFor, AfterBuild, HostConfiguration;
    var a := ImageCreation(w, list, name, d, f);
    if a.Proceed? {
      HostConfigurationEffect(o, a.w, list, f);
    }
  }

  lemma ImageAndHostReady(o: Options, w: World, list: seq<Condition>, name: string, d: ClusterDeployment, f: MainFaults)
    requires HostAt(w) && HostPrepared(HostOf(w))
    requires MetadataComplete(w.install.value.spec.metadata, name)
    requires w.install.value.spec.deployment == Some(name) && name in w.deployments
    requires Starts(w, ImageAndHost(o, w, list, name, d, f))
    ensures var p := ImageAndHost(o, w, list, name, d, f);
            p.w.install.value.status.host.Some? && ReadyToBoot(o, p.w, name)
  {
    hide Mirrors, MetadataComplete, HostConfiguration, ReadyToBoot, WriteInputData;
    var a := ImageCreation(w, list, name, d, f);
    var c := ConfigFor(w.install.value.spec.metadata, d, f.configRest);
    BuildDoneMirrors(w.secrets, DirOf(w, w.install.value.uid), name, c, f.build);
    assert ImageStored(a.w, w.install.value.uid, name);
    HostConfigurationReady(o, a.w, list, name, f);
  }

  lemma BeforeImageEffect(w: World, list: seq<Condition>, deployment: Option<ClusterDeployment>, f: MainFaults)
    requires w.install.Some?
    requires deployment.Some? ==> w.install.value.spec.deployment.Some?
    ensures var p := BeforeImage(w, list, deployment, f);
      && p.w == w.(install := p.w.install, hosts := p.w.hosts)
      && p.w.install.value == WithMetadata(w.install.value, p.w.install.value.spec.metadata)
      && (p.list == list || p.list == Stored(w))
      && (p.Proceed? ==>
            && HostAt(p.w) && HostPrepared(HostOf(p.w))
            && deployment.Some?
            && MetadataComplete(p.w.install.value.spec.metadata, w.install.value.spec.deployment.value))
  {
    hide MetadataComplete, SetMetadata;
    assert WithMetadata(w.install.value, w.install.value.spec.metadata) == w.install.value;
  }

  /** The stored installation afterwards: metadata may be filled in, and the start may be recorded. */
  predicate InstallStep(a: Install, b: Install, now: int) {
    || b == WithMetadata(a, b.spec.metadata)
    || (a.status.host.None? && b == WithMetadata(Booted(a, now), b.spec.metadata))
  }

  lemma PhasesEffect(o: Options, w: World, list: seq<Condition>, deployment: Option<ClusterDeployment>, f: MainFaults)
    requires w.install.Some?
    requires deployment.Some? ==> w.install.value.spec.deployment.Some?
    ensures var p := Phases(o, w, list, deployment, f);
      && p.w == w.(install := p.w.install, hosts := p.w.hosts, images := p.w.images,
                   secrets := p.w.secrets, dirs := p.w.dirs)
      && InstallStep(w.install.value, p.w.install.value, w.now)
      && (Starts(w, p) || p.w.install.value == WithMetadata(w.install.value, p.w.install.value.spec.metadata))
      && (p.list == list || p.list == Stored(w))
      && ImagesStep(w, p.w)
      && p.w.dirs.Keys <= w.dirs.Keys + {w.install.value.uid}
  {
    hide BeforeImage, ImageAndHost, BuildFor, MetadataComplete;
    var c := BeforeImage(w, list, deployment, f);
    BeforeImageEffect(w, list, deployment, f);
    if c.Proceed? {
      ImageAndHostEffect(o, c.w, c.list, w.install.value.spec.deployment.value, deployment.value, f);
    }
  }

  lemma PhasesReady(o: Options, w: World, list: seq<Condition>, deployment: Option<ClusterDeployment>, f: MainFaults)
    requires w.install.Some? && Found(w, deployment)
    requires Starts(w, Phases(o, w, list, deployment, f))
    ensures var p := Phases(o, w, list, deployment, f);
      && p.w.install.value.status.host.Some?
      && w.install.value.spec.deployment.Some? && ReadyToBoot(o, p.w, w.install.value.spec.deployment.value)
  {
    hide BeforeImage, ImageAndHost, MetadataComplete, ReadyToBoot;
    var c := BeforeImage(w, list, deployment, f);
    BeforeImageEffect(w, list, deployment, f);
    ImageAndHostReady(o, c.w, c.list, w.install.value.spec.deployment.value, deployment.value, f);
  }

  /** The deployment in hand is the one the installation names. */
  predicate Found(w: World, deployment: Option<ClusterDeployment>)
    requires w.install.Some?
  {
    deployment.Some? ==>
      && w.install.value.spec.deployment.Some?
      && w.install.value.spec.deployment.value in w.deployments
      && deployment.value == w.deployments[w.install.value.spec.deployment.value]
  }

  /** The start is recorded between the two states. */
  predicate NewlyStarted(w: World, v: World)
    requires w.install.Some? && v.install.Some?
  {
    w.install.value.status.host.None? && v.install.value.status.host.Some?
  }

  /**
   Secrets and working directory are as they were, or are the result of one build, which was successful if the
   installation is recorded as started.
   */
  predicate BuildOutcome(w: World, v: World, deployment: Option<ClusterDeployment>, f: MainFaults)
    requires w.install.Some? && v.install.Some?
    requires deployment.Some? ==> w.install.value.spec.deployment.Some?
  {
    || (v.secrets == w.secrets && v.dirs == w.dirs && !NewlyStarted(w, v))
    || (&& deployment.Some?
        && MetadataComplete(v.install.value.spec.metadata, w.install.value.spec.deployment.value)
        && var u := w.(install := v.install);
           var b := BuildFor(u, w.install.value.spec.deployment.value, deployment.value, f);
           && v.secrets == b.secrets && v.dirs == AfterBuild(u, b).dirs
           && (NewlyStarted(w, v) ==> b.result == BuildDone))
  }

  /** Secrets and files change only through one build, for the named deployment and under stored metadata. */
  lemma PhasesBuild(o: Options, w: World, list: seq<Condition>, deployment: Option<ClusterDeployment>, f: MainFaults)
    requires w.install.Some? && Found(w, deployment)
    ensures BuildOutcome(w, Phases(o, w, list, deployment, f).w, deployment, f)
  {
    hide BeforeImage, ImageAndHost, MetadataComplete, BuildFor, AfterBuild;
    var c := BeforeImage(w, list, deployment, f);
    BeforeImageEffect(w, list, deployment, f);
    if c.Proceed? {
      var name := w.install.value.spec.deployment.value;
      ImageAndHostEffect(o, c.w, c.list, name, deployment.value, f);
      var p := ImageAndHost(o, c.w, c.list, name, deployment.value, f);
      SameBuild(c.w, w.(install := p.w.install), name, deployment.value, f);
    }
  }

  /** The metadata is kept, or completed once for the named deployment. */
  predicate MetadataOutcome(w: World, v: World, deployment: Option<ClusterDeployment>, f: MainFaults)
    requires w.install.Some? && v.install.Some?
    requires deployment.Some? ==> w.install.value.spec.deployment.Some?
  {
    var before, after := w.install.value.spec.metadata, v.install.value.spec.metadata;
    || after == before
    || (&& deployment.Some?
        && var name := w.install.value.spec.deployment.value;
        && !MetadataComplete(before, name)
        && after.Some?
        && after == NewMetadata(before, w.secrets, name, deployment.value.clusterName, f))
  }

  lemma BeforeImageMetadata(w: World, list: seq<Condition>, deployment: Option<ClusterDeployment>, f: MainFaults)
    requires w.install.Some?
    requires deployment.Some? ==> w.install.value.spec.deployment.Some?
    ensures MetadataOutcome(w, BeforeImage(w, list, deployment, f).w, deployment, f)
  {
    hide MetadataComplete, NewMetadata;
  }

  lemma PhasesMetadata(o: Options, w: World, list: seq<Condition>, deployment: Option<ClusterDeployment>, f: MainFaults)
    requires w.install.Some?
    requires deployment.Some? ==> w.install.value.spec.deployment.Some?
    ensures MetadataOutcome(w, Phases(o, w, list, deployment, f).w, deployment, f)
  {
    hide BeforeImage, ImageAndHost, MetadataComplete, NewMetadata, BuildFor;
    var c := BeforeImage(w, list, deployment, f);
    BeforeImageMetadata(w, list, deployment, f);
    BeforeImageEffect(w, list, deployment, f);
    if c.Proceed? {
      ImageAndHostEffect(o, c.w, c.list, w.install.value.spec.deployment.value, deployment.value, f);
    }
  }

  lemma SameBuild(w: World, v: World, name: string, d: ClusterDeployment, f: MainFaults)
    requires w.install.Some? && v.install.Some?
    requires w.secrets == v.secrets && w.dirs == v.dirs
    requires w.install.value.uid == v.install.value.uid && w.install.value.spec == v.install.value.spec
    ensures BuildFor(w, name, d, f) == BuildFor(v, name, d, f)
    ensures AfterBuild(w, BuildFor(w, name, d, f)).dirs == AfterBuild(v, BuildFor(v, name, d, f)).dirs
  {
    hide WriteInputData;
  }

  // ------------------------------------------------- the deferred update

  /** The parts of an installation that the controller never rewrites while it is active. */
  function Core(i: Install): Install {
    i.(restoreStatus := false, postCleanup := false, spec := i.spec.(metadata := None),
       status := Status([], i.status.installRestarts, None, None))
  }

  predicate BootKept(w: World, v: World)
    requires w.install.Some? && v.install.Some?
  {
    && v.install.value.status.host == w.install.value.status.host
    && v.install.value.status.bootTime == w.install.value.status.bootTime
  }

  /** The start is recorded in `v`, and everything it needs is in place there. */
  predicate NewBoot(o: Options, w: World, v: World)
    requires w.install.Some? && v.install.Some?
  {
    && w.install.value.status.host.None?
    && v.install.value.status.host.Some?
    && v.install.value.status.host == w.install.value.spec.host
    && v.install.value.status.bootTime ==
       (if w.install.value.status.bootTime.None? then Some(w.now) else w.install.value.status.bootTime)
    && w.install.value.spec.deployment.Some?
    && ReadyToBoot(o, v, w.install.value.spec.deployment.value)
    && AllReported(Stored(v))
  }

  lemma ReadyFrame(o: Options, w: World, list: seq<Condition>, name: string)
    requires w.install.Some? && ReadyToBoot(o, w, name)
    ensures ReadyToBoot(o, PatchConditions(w, list), name)
  {
    hide Mirrors, MetadataComplete;
  }

  lemma InstallStepCore(a: Install, b: Install, now: int)
    requires InstallStep(a, b, now)
    ensures Core(b) == Core(a)
    ensures b.status.conditions == a.status.conditions && b.postCleanup == a.postCleanup && b.uid == a.uid
    ensures UserSpec(b.spec) == UserSpec(a.spec)
  {
  }

  lemma PatchConditionsCore(w: World, list: seq<Condition>)
    requires w.install.Some?
    ensures var v := PatchConditions(w, list);
      && Core(v.install.value) == Core(w.install.value)
      && v.install.value.postCleanup == w.install.value.postCleanup
      && v.install.value.status.host == w.install.value.status.host
      && v.install.value.status.bootTime == w.install.value.status.bootTime
  {
  }

  lemma RunPhasesFrame(o: Options, w: World, list: seq<Condition>, deployment: Option<ClusterDeployment>, f: MainFaults)
    requires w.install.Some? && Found(w, deployment) && CondSync(list, Stored(w))
    ensures var v := RunPhases(o, w, list, deployment, f).w;
      && v.install.Some?
      && v == w.(install := v.install, hosts := v.hosts, images := v.images, secrets := v.secrets, dirs := v.dirs)
      && Core(v.install.value) == Core(w.install.value)
      && v.install.value.postCleanup == w.install.value.postCleanup
      && SameProgress(Stored(v), Stored(w))
      && StillReported(Stored(w), Stored(v))
      && ImagesStep(w, v)
      && v.dirs.Keys <= w.dirs.Keys + {w.install.value.uid}
  {
    hide Phases, CondSync, RecordReport, SameProgress, Find, Core, InstallStep, StatusOf;
    var p := Phases(o, w, list, deployment, f);
    PhasesEffect(o, w, list, deployment, f);
    InstallStepCore(w.install.value, p.w.install.value, w.now);
    CondSyncRefl(Stored(w));
    var report := if p.Halt? then p.report else MET;
    RecordReportEffect(p.w, p.list, report, f.report);
    PatchConditionsCore(p.w, Stored(RecordReport(p.w, p.list, report, f.report).w));
  }

  lemma CondSyncRefl(list: seq<Condition>)
    ensures CondSync(list, list)
  {
  }

  lemma RunPhasesBoot(o: Options, w: World, list: seq<Condition>, deployment: Option<ClusterDeployment>, f: MainFaults)
    requires w.install.Some? && Found(w, deployment) && CondSync(list, Stored(w)) && AllReported(Stored(w))
    ensures var v := RunPhases(o, w, list, deployment, f).w;
      && v.install.Some?
      && (BootKept(w, v) || NewBoot(o, w, v))
      && (SaysMet(Stored(v)) ==> SaysMet(Stored(w)) || v.install.value.status.host.Some?)
  {
    hide Phases, CondSync, RecordReport, ReadyToBoot, Core, Find, InstallStep;
    var p := Phases(o, w, list, deployment, f);
    var report := if p.Halt? then p.report else MET;
    PhasesEffect(o, w, list, deployment, f);
    PhaseReports(o, w, list, deployment, f);
    InstallStepCore(w.install.value, p.w.install.value, w.now);
    CondSyncRefl(Stored(w));
    RecordReportEffect(p.w, p.list, report, f.report);
    var v := RecordReport(p.w, p.list, report, f.report).w;
    PatchConditionsCore(p.w, Stored(v));
    if Starts(w, p) {
      PhasesReady(o, w, list, deployment, f);
      ReadyFrame(o, p.w, Stored(v), w.install.value.spec.deployment.value);
      InstallStepBoot(w.install.value, p.w.install.value, w.now);
    }
  }

  lemma InstallStepBoot(a: Install, b: Install, now: int)
    requires InstallStep(a, b, now)
    ensures (b.status.host == a.status.host && b.status.bootTime == a.status.bootTime)
         || (a.status.host.None? && b.status.host == a.spec.host
             && b.status.bootTime == if a.status.bootTime.None? then Some(now) else a.status.bootTime)
  {
  }

  // ------------------------------------------------------------- reports

  predicate IsFailedReason(r: Reason) {
    r == ConfigurationFailed || r == HostValidationFailed || r == ImageCreationFailed || r == HostConfigurationFailed
  }

  predicate IsPendingReason(r: Reason) {
    || r == ConfigurationPending || r == HostValidationPending
    || r == ImageCreationPending || r == HostConfigurationPending
  }

  /** An interrupted phase reports False, with a Failed reason exactly when it returns an error. */
  predicate HonestHalt(p: Phase) {
    p.Halt? ==>
      && p.report.status == False
      && (if p.err then IsFailedReason(p.report.reason) && p.requeue == NoRequeue else IsPendingReason(p.report.reason))
  }

  lemma PhaseReports(o: Options, w: World, list: seq<Condition>, deployment: Option<ClusterDeployment>, f: MainFaults)
    requires w.install.Some?
    requires deployment.Some? ==> w.install.value.spec.deployment.Some?
    ensures HonestHalt(Phases(o, w, list, deployment, f))
  {
    hide BeforeImage, ImageAndHost, HonestHalt;
    var c := BeforeImage(w, list, deployment, f);
    BeforeImageReports(w, list, deployment, f);
    if c.Proceed? {
      ImageAndHostReports(o, c.w, c.list, w.install.value.spec.deployment.value, deployment.value, f);
    }
  }

  lemma ConfigurationReports(w: World, list: seq<Condition>, deployment: Option<ClusterDeployment>, f: MainFaults)
    requires w.install.Some?
    ensures HonestHalt(Configuration(w, list, deployment, f))
  {
  }

  lemma HostValidationReports(w: World, list: seq<Condition>, f: MainFaults)
    requires HostAt(w)
    ensures HonestHalt(HostValidation(w, list, f))
  {
    hide Accepts;
  }

  lemma MetadataReports(w: World, list: seq<Condition>, name: string, d: ClusterDeployment, f: MainFaults)
    requires w.install.Some?
    ensures HonestHalt(SetMetadata(w, list, name, d, f))
  {
    hide MetadataComplete, MetadataPanics, NewMetadata;
  }

  lemma BeforeImageReports(w: World, list: seq<Condition>, deployment: Option<ClusterDeployment>, f: MainFaults)
    requires w.install.Some?
    requires deployment.Some? ==> w.install.value.spec.deployment.Some?
    ensures HonestHalt(BeforeImage(w, list, deployment, f))
  {
    hide Configuration, HostValidation, SetMetadata, HonestHalt;
    var a := Configuration(w, list, deployment, f);
    ConfigurationReports(w, list, deployment, f);
    if a.Proceed? {
      var b := HostValidation(a.w, list, f);
      HostValidationReports(a.w, list, f);
      MetadataReports(b.w, list, w.install.value.spec.deployment.value, deployment.value, f);
    }
  }

  lemma ImageAndHostReports(o: Options, w: World, list: seq<Condition>, name: string, d: ClusterDeployment,
                            f: MainFaults)
    requires HostAt(w)
    ensures HonestHalt(ImageAndHost(o, w, list, name, d, f))
  {
    hide BuildFor, AfterBuild, HostConfiguration;
    var d' := ImageCreation(w, list, name, d, f);
    assert HonestHalt(d');
    if d'.Proceed? {
      HostConfigurationReports(o, d'.w, list, f);
    }
  }

  lemma HostConfigurationReports(o: Options, w: World, list: seq<Condition>, f: MainFaults)
    requires HostAt(w)
    ensures HonestHalt(HostConfiguration(o, w, list, f))
  {
    hide AttachImage, BootHost, HonestHalt;
    var a := AttachImage(o, w, list, f);
    AttachReports(o, w, list, f);
    if a.Proceed? {
      BootReports(a.w, list, f);
    }
  }

  lemma AttachReports(o: Options, w: World, list: seq<Condition>, f: MainFaults)
    requires HostAt(w)
    ensures HonestHalt(AttachImage(o, w, list, f))
  {
    assert HonestHalt(EnsureDataImage(w, list, f));
  }

  lemma BootReports(w: World, list: seq<Condition>, f: MainFaults)
    requires HostAt(w) && RefOf(w) in w.images
    ensures HonestHalt(BootHost(w, list, f))
  {
    var b := UpdateProvisioning(w, list, f);
    assert HonestHalt(b);
    if b.Proceed? {
      assert HonestHalt(RecordBoot(b.w, list, f));
    }
  }

  // ---------------------------------------------------- before the phases

  /** From lists (a in memory, b stored) to initialised lists (a', b'). */
  predicate Initialised(a: seq<Condition>, b: seq<Condition>, a': seq<Condition>, b': seq<Condition>, now: int) {
    && CondSync(a', b')
    && AllReported(b')
    && Filled(b, b', now)
    && StillReported(b, b')
    && (SaysMet(b') || SaysMet(a') ==> SaysMet(b) || SaysMet(a))
  }

  lemma InitializedLists(a: seq<Condition>, b: seq<Condition>, now: int)
    requires CondSync(a, b)
    ensures var list := Initialized(a, now);
            Initialised(a, b, list, list, now) && (list == a ==> Initialised(a, b, a, b, now))
  {
    var list := Initialized(a, now);
    assert AllReported(list);
  }

  lemma InitializeStatusEffect(w: World, list: seq<Condition>, fault: WriteFault)
    requires w.install.Some? && CondSync(list, Stored(w))
    ensures var r := InitializeStatus(w, list, fault);
      && r.w == PatchConditions(w, Stored(r.w))
      && (|| Initialised(list, Stored(w), r.list, Stored(r.w), w.now)
          || (r.err && Stored(r.w) == Stored(w)))
      && (!r.err ==> Initialised(list, Stored(w), r.list, Stored(r.w), w.now))
  {
    hide CondSync, Initialised, Initialized, Find;
    InitializedLists(list, Stored(w), w.now);
    assert PatchConditions(w, Stored(w)) == w;
  }

  /** The object changed at most in its annotations and conditions. */
  predicate Touched(w: World, v: World) {
    && w.install.Some? && v.install.Some?
    && v == w.(install := v.install)
    && v.install.value.spec == w.install.value.spec
    && Core(v.install.value) == Core(w.install.value)
    && BootKept(w, v)
  }

  lemma AnnotateTouches(w: World, list: seq<Condition>, restoreStatus: bool, postCleanup: bool, fault: WriteFault)
    requires w.install.Some?
    ensures var r := Annotate(w, list, restoreStatus, postCleanup, fault);
            Touched(w, r.w) && Stored(r.w) == Stored(w)
  {
  }

  lemma PatchTouches(w: World, list: seq<Condition>)
    requires w.install.Some?
    ensures Touched(w, PatchConditions(w, list))
  {
  }

  lemma TouchedTransitive(u: World, v: World, w: World)
    requires Touched(u, v) && Touched(v, w)
    ensures Touched(u, w)
  {
    hide Core;
  }

  /** Both annotations are stored and the conditions are initialised. */
  predicate WellPrepared(w: World, list: seq<Condition>, r: Prepared)
    requires w.install.Some? && r.w.install.Some?
  {
    && r.w.install.value.postCleanup
    && CondSync(r.list, Stored(r.w))
    && AllReported(Stored(r.w))
    && StillReported(Stored(w), Stored(r.w))
    && Filled(Stored(w), Stored(r.w), w.now)
    && (SaysMet(Stored(r.w)) ==> SaysMet(Stored(w)) || SaysMet(list))
  }

  lemma PrepareEffect(w: World, list: seq<Condition>, f: MainFaults)
    requires w.install.Some? && CondSync(list, Stored(w))
    ensures var r := Prepare(w, list, f);
      && Touched(w, r.w)
      && (WellPrepared(w, list, r) || (r.err && Stored(r.w) == Stored(w)))
      && (!r.err ==> WellPrepared(w, list, r))
  {
    hide AnnotateBoth, InitializeStatus, CondSync, Filled, AllReported, SaysMet, Touched, Core;
    var a := AnnotateBoth(w, list, f);
    AnnotateBothTouches(w, list, f);
    if !a.err {
      CondSyncRefl(Stored(w));
      var r := InitializeStatus(a.w, a.list, f.initialize);
      InitializeStatusEffect(a.w, a.list, f.initialize);
      PatchTouches(a.w, Stored(r.w));
      TouchedTransitive(w, a.w, r.w);
    }
  }

  lemma AnnotateBothTouches(w: World, list: seq<Condition>, f: MainFaults)
    requires w.install.Some?
    ensures var r := AnnotateBoth(w, list, f);
            Touched(w, r.w) && Stored(r.w) == Stored(w)
  {
    hide Annotate, Touched, Core;
    var a := Annotate(w, list, true, w.install.value.postCleanup, f.restoreStatus);
    AnnotateTouches(w, list, true, w.install.value.postCleanup, f.restoreStatus);
    if !a.err {
      AnnotateTouches(a.w, a.list, true, true, f.postCleanup);
      TouchedTransitive(w, a.w, Annotate(a.w, a.list, true, true, f.postCleanup).w);
    }
  }

  lemma RepairEffect(w: World, f: MainFaults)
    requires w.install.Some?
    ensures var h := Repair(w, f);
      && h.w == PatchConditions(w, Stored(h.w))
      && CondSync(h.list, Stored(h.w))
      && SameProgress(Stored(h.w), Stored(w))
      && StillReported(Stored(w), Stored(h.w))
      && (SaysMet(h.list) || SaysMet(Stored(h.w)) ==> SaysMet(Stored(w)) || w.install.value.status.bootTime.Some?)
  {
    CondSyncRefl(Stored(w));
    assert PatchConditions(w, Stored(w)) == w;
    if w.install.value.status.bootTime.Some? && HasStatus(Stored(w), RequirementsMet, False) {
      RecordReportEffect(w, Stored(w), MET, f.repair);
    }
  }

  // ------------------------------------------------- the whole reconcile

  /** One reconcile of an installation that is active and not completed. */
  ghost predicate ActiveStep(o: Options, w: World, v: World) {
    && w.install.Some? && v.install.Some?
    && v == w.(install := v.install, hosts := v.hosts, images := v.images, secrets := v.secrets, dirs := v.dirs)
    && Core(v.install.value) == Core(w.install.value)
    && (BootKept(w, v) || NewBoot(o, w, v))
    && (SameProgress(Stored(v), Stored(w)) || Filled(Stored(w), Stored(v), w.now))
    && StillReported(Stored(w), Stored(v))
    && (SaysMet(Stored(v)) ==>
          SaysMet(Stored(w)) || v.install.value.status.host.Some? || v.install.value.status.bootTime.Some?)
    && ImagesStep(w, v)
    && (v.images == w.images || v.install.value.postCleanup)
    && v.dirs.Keys <= w.dirs.Keys + {w.install.value.uid}
  }

  lemma TouchedIsActive(o: Options, w: World, v: World)
    requires Touched(w, v)
    requires SameProgress(Stored(v), Stored(w)) || Filled(Stored(w), Stored(v), w.now)
    requires StillReported(Stored(w), Stored(v))
    requires SaysMet(Stored(v)) ==> SaysMet(Stored(w)) || w.install.value.status.bootTime.Some?
    ensures ActiveStep(o, w, v)
  {
    hide Core, SaysMet, SameProgress, Filled, StillReported;
  }

  lemma TouchedThenActive(o: Options, u: World, w: World, v: World)
    requires Touched(u, w)
    requires v.install.Some?
    requires v == w.(install := v.install, hosts := v.hosts, images := v.images, secrets := v.secrets, dirs := v.dirs)
    requires Core(v.install.value) == Core(w.install.value)
    requires BootKept(w, v) || NewBoot(o, w, v)
    requires SameProgress(Stored(v), Stored(u)) || Filled(Stored(u), Stored(v), u.now)
    requires StillReported(Stored(u), Stored(v))
    requires SaysMet(Stored(v)) ==>
               SaysMet(Stored(u)) || v.install.value.status.host.Some? || v.install.value.status.bootTime.Some?
    requires ImagesStep(w, v) && v.install.value.postCleanup
    requires v.dirs.Keys <= w.dirs.Keys + {w.install.value.uid}
    ensures ActiveStep(o, u, v)
  {
    hide SaysMet, SameProgress, Filled, ReadyToBoot, AllReported, StillReported;
    CoreFields(u.install.value, w.install.value);
  }

  lemma CoreFields(a: Install, b: Install)
    requires Core(a) == Core(b)
    ensures a.uid == b.uid && a.namespace == b.namespace && a.deleting == b.deleting && a.finalizer == b.finalizer
    ensures a.spec.host == b.spec.host && a.spec.deployment == b.spec.deployment
    ensures UserSpec(a.spec) == UserSpec(b.spec)
  {
  }

  lemma GateEffect(o: Options, u: World, w: World, list: seq<Condition>, deployment: Option<ClusterDeployment>,
                   f: MainFaults)
    requires Touched(u, w) && Found(w, deployment) && CondSync(list, Stored(w))
    requires SameProgress(Stored(w), Stored(u)) && StillReported(Stored(u), Stored(w))
    requires SaysMet(list) || SaysMet(Stored(w)) ==> SaysMet(Stored(u)) || u.install.value.status.bootTime.Some?
    ensures ActiveStep(o, u, AfterRestoreGate(o, w, list, deployment, f).w)
  {
    hide Prepare, RunPhases, CondSync, SaysMet, AllReported, Core, Touched, ReadyToBoot, ImagesStep, Find, ActiveStep;
    TouchedBoot(u, w);
    var p := Prepare(w, list, f);
    PrepareEffect(w, list, f);
    TouchedTransitive(u, w, p.w);
    TouchedBoot(u, p.w);
    TouchedBoot(w, p.w);
    if p.err {
      TouchedIsActive(o, u, p.w);
    } else {
      var v := RunPhases(o, p.w, p.list, deployment, f).w;
      RunPhasesFrame(o, p.w, p.list, deployment, f);
      RunPhasesBoot(o, p.w, p.list, deployment, f);
      FilledSame(Stored(u), Stored(w), Stored(p.w), Stored(v), u.now);
      TouchedThenActive(o, u, p.w, v);
    }
  }

  lemma TouchedBoot(u: World, v: World)
    requires Touched(u, v)
    ensures u.install.Some? && v.install.Some? && BootKept(u, v) && u.now == v.now
    ensures forall d | Found(u, d) :: Found(v, d)
  {
  }

  lemma FilledSame(a: seq<Condition>, b: seq<Condition>, c: seq<Condition>, d: seq<Condition>, now: int)
    requires SameProgress(b, a) && Filled(b, c, now) && SameProgress(d, c)
    ensures Filled(a, d, now)
  {
  }

  /** What one reconcile does to an installation that is neither deleted, new nor completed. */
  lemma ActiveEffect(o: Options, w: World, f: MainFaults)
    requires w.install.Some? && !InstallationCompleted(w.install.value)
    ensures ActiveStep(o, w, Active(o, w, f).w)
  {
    hide Repair, AfterRestoreGate, CondSync, SaysMet, Touched, ActiveStep, Find, SameProgress;
    var h := Repair(w, f);
    RepairEffect(w, f);
    PatchTouches(w, Stored(h.w));
    TouchedBoot(w, h.w);
    TouchedIsActive(o, w, h.w);
    GateEffect(o, w, h.w, h.list, LookUpDeployment(w, f), f);
  }

  // ------------------------------------------------ secrets, files, metadata

  lemma ReportKeepsIdentity(w: World, u: World, r: Held, deployment: Option<ClusterDeployment>, f: MainFaults)
    requires w.install.Some? && u.install.Some? && r.w.install.Some?
    requires deployment.Some? ==> w.install.value.spec.deployment.Some?
    requires r.w == u.(install := r.w.install) && r.w == PatchConditions(u, Stored(r.w))
    requires BuildOutcome(w, u, deployment, f) && MetadataOutcome(w, u, deployment, f)
    ensures BuildOutcome(w, r.w, deployment, f) && MetadataOutcome(w, r.w, deployment, f)
  {
    hide BuildFor, MetadataComplete, NewMetadata, AfterBuild;
    if deployment.Some? {
      var name := w.install.value.spec.deployment.value;
      SameBuild(w.(install := u.install), w.(install := r.w.install), name, deployment.value, f);
    }
  }

  lemma RunPhasesIdentity(o: Options, w: World, list: seq<Condition>, deployment: Option<ClusterDeployment>,
                          f: MainFaults)
    requires w.install.Some? && Found(w, deployment) && CondSync(list, Stored(w))
    ensures var v := RunPhases(o, w, list, deployment, f).w;
      v.install.Some? && BuildOutcome(w, v, deployment, f) && MetadataOutcome(w, v, deployment, f)
  {
    hide Phases, CondSync, RecordReport, Find, InstallStep, BuildOutcome, MetadataOutcome;
    var p := Phases(o, w, list, deployment, f);
    var report := if p.Halt? then p.report else MET;
    PhasesEffect(o, w, list, deployment, f);
    PhasesBuild(o, w, list, deployment, f);
    PhasesMetadata(o, w, list, deployment, f);
    InstallStepCore(w.install.value, p.w.install.value, w.now);
    CondSyncRefl(Stored(w));
    RecordReportEffect(p.w, p.list, report, f.report);
    ReportKeepsIdentity(w, p.w, RecordReport(p.w, p.list, report, f.report), deployment, f);
  }

  lemma TouchedThenIdentity(u: World, w: World, v: World, deployment: Option<ClusterDeployment>, f: MainFaults)
    requires Touched(u, w) && v.install.Some?
    requires deployment.Some? ==> u.install.value.spec.deployment.Some?
    requires BuildOutcome(w, v, deployment, f) && MetadataOutcome(w, v, deployment, f)
    ensures BuildOutcome(u, v, deployment, f) && MetadataOutcome(u, v, deployment, f)
  {
    hide BuildFor, MetadataComplete, NewMetadata, AfterBuild, Core;
    if deployment.Some? {
      var name := u.install.value.spec.deployment.value;
      SameBuild(u.(install := v.install), w.(install := v.install), name, deployment.value, f);
    }
  }

  lemma TouchedKeepsIdentity(u: World, v: World, deployment: Option<ClusterDeployment>, f: MainFaults)
    requires Touched(u, v)
    requires deployment.Some? ==> u.install.value.spec.deployment.Some?
    ensures BuildOutcome(u, v, deployment, f) && MetadataOutcome(u, v, deployment, f)
  {
    hide BuildFor, MetadataComplete, NewMetadata, AfterBuild, Core;
  }

  /** Secrets and files change only through one build for the named deployment; metadata is only completed. */
  lemma ActiveIdentity(o: Options, w: World, f: MainFaults)
    requires w.install.Some? && !InstallationCompleted(w.install.value)
    ensures var v := Active(o, w, f).w; var d := LookUpDeployment(w, f);
      v.install.Some? && BuildOutcome(w, v, d, f) && MetadataOutcome(w, v, d, f)
  {
    hide Repair, Prepare, RunPhases, CondSync, Find, SaysMet, Touched, SameProgress, BuildOutcome, MetadataOutcome,
         StillReported, Filled, AllReported;
    var d := LookUpDeployment(w, f);
    var h := Repair(w, f);
    RepairEffect(w, f);
    PatchTouches(w, Stored(h.w));
    TouchedBoot(w, h.w);
    TouchedKeepsIdentity(w, h.w, d, f);
    var p := Prepare(h.w, h.list, f);
    PrepareEffect(h.w, h.list, f);
    TouchedTransitive(w, h.w, p.w);
    TouchedBoot(w, p.w);
    TouchedKeepsIdentity(w, p.w, d, f);
    if !p.err {
      RunPhasesIdentity(o, p.w, p.list, d, f);
      TouchedThenIdentity(w, p.w, RunPhases(o, p.w, p.list, d, f).w, d, f);
    }
  }

  // ------------------------------------------------- one entry per type

  /** Both the list in memory and the stored one have at most one entry per type. */
  predicate BothDistinct(w: World, list: seq<Condition>)
    requires w.install.Some?
  {
    Distinct(list) && Distinct(Stored(w))
  }

  lemma RecordReportDistinct(w: World, list: seq<Condition>, r: Report, fails: bool)
    requires w.install.Some? && BothDistinct(w, list)
    ensures var h := RecordReport(w, list, r, fails); BothDistinct(h.w, h.list)
  {
    hide Distinct, Set;
    SetKeepsDistinct(list, RequirementsMetCondition(r), w.now);
  }

  lemma PrepareDistinct(w: World, list: seq<Condition>, f: MainFaults)
    requires w.install.Some? && BothDistinct(w, list)
    ensures var p := Prepare(w, list, f); BothDistinct(p.w, p.list)
  {
    hide Distinct, AnnotateBoth, Initialized, Touched;
    var a := AnnotateBoth(w, list, f);
    AnnotateBothTouches(w, list, f);
    InitializedKeepsDistinct(a.list, a.w.now);
  }

  lemma RunPhasesDistinct(o: Options, w: World, list: seq<Condition>, deployment: Option<ClusterDeployment>,
                          f: MainFaults)
    requires w.install.Some? && BothDistinct(w, list)
    requires deployment.Some? ==> w.install.value.spec.deployment.Some?
    ensures var v := RunPhases(o, w, list, deployment, f).w; v.install.Some? && Distinct(Stored(v))
  {
    hide Distinct, Phases, RecordReport, InstallStep, ImagesStep;
    var p := Phases(o, w, list, deployment, f);
    PhasesEffect(o, w, list, deployment, f);
    InstallStepCore(w.install.value, p.w.install.value, w.now);
    RecordReportDistinct(p.w, p.list, if p.Halt? then p.report else MET, f.report);
  }

  lemma ActiveDistinct(o: Options, w: World, f: MainFaults)
    requires w.install.Some? && !InstallationCompleted(w.install.value) && Distinct(Stored(w))
    ensures var v := Active(o, w, f).w; v.install.Some? && Distinct(Stored(v))
  {
    hide Distinct, Prepare, RunPhases, RecordReport, Find;
    var h := Repair(w, f);
    RecordReportDistinct(w, Stored(w), MET, f.repair);
    RepairSpec(w, f);
    var p := Prepare(h.w, h.list, f);
    PrepareDistinct(h.w, h.list, f);
    if !p.err {
      RunPhasesDistinct(o, p.w, p.list, LookUpDeployment(w, f), f);
    }
  }

  lemma RepairSpec(w: World, f: MainFaults)
    requires w.install.Some?
    ensures Repair(w, f).w.install.value.spec == w.install.value.spec
  {
    hide Set, Find;
  }
}
