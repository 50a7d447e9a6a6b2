/** An installation that has everything it asks for is started within three undisturbed reconciles. */
module Progress {
  import opened Base
  import opened Conditions
  import opened Credentials
  import opened ImageBuild
  import opened MachineNetworks
  import opened Spoke
  import opened Hub
  import opened DataImages
  import opened MainReconciler
  import opened Monitor
  import opened MonitorEffects
  import opened Safety
  import opened MainEffects
  import opened Reports

  // -------------------------------------------------- undisturbed calls

  predicate SmoothEnsure(f: EnsureFault) {
    !f.get && f.write == Fine
  }

  predicate SmoothBuild(f: BuildFaults) {
    && !f.dirs && !f.lock && !f.busy && !f.workDir && !f.inputs
    && !f.read.kubeconfig && !f.read.password && !f.read.seed
    && !f.tempDir && !f.configs
    && !f.reinstall.assets && !f.reinstall.manifest && !f.reinstall.kubeconfig && !f.reinstall.password
    && !f.installer.fails
    && SmoothEnsure(f.ensure.password) && SmoothEnsure(f.ensure.kubeconfig) && SmoothEnsure(f.ensure.seed)
  }

  /** Nothing on the way to the start fails. */
  predicate Undisturbed(f: MainFaults) {
    && !f.getInstall && f.addFinalizer == Fine && !f.getDeployment
    && f.restoreStatus == Fine && f.postCleanup == Fine && f.initialize == Fine
    && !f.getHost && f.cleaning == Fine && f.external == Fine && !f.readSeed && f.metadata == Fine
    && SmoothBuild(f.build) && !f.url
    && !f.getImage && !f.ownerRef && f.createImage == Fine && !f.rereadImage && f.provisioning == Fine && f.boot == Fine
  }

  /** Nothing fails, not even the last report. */
  predicate Smooth(f: MainFaults) {
    Undisturbed(f) && !f.report
  }

  // ---------------------------------------------------------- the build

  /** The image is there, or can be generated, or can be rebuilt from the stored identity. */
  predicate Buildable(s: Secrets, dir: Option<WorkDir>, name: string, c: Config) {
    || PresentAndBuilt(dir)
    || (&& c.clusterId != "" && c.infraId != ""
        && (IdentityOf(s, name).Some? ==>
              && Decode(IdentityOf(s, name).value.seed).Some?
              && ValidForReinstall(c, Decode(IdentityOf(s, name).value.seed).value)))
  }

  /**
   An undisturbed build succeeds if and only if the image exists or the IDs are known and a stored identity,
   if there is one, can be decoded and has this base domain and cluster name.
   */
  lemma SmoothBuildSucceedsIff(s: Secrets, dir: Option<WorkDir>, name: string, c: Config, f: BuildFaults)
    requires SmoothBuild(f)
    ensures WriteInputData(s, dir, name, c, f).result == BuildDone <==> Buildable(s, dir, name, c)
  {
    hide Content;
  }

  // ------------------------------------------------------ what is needed

  /** The host exists, is acceptable and can be booted. */
  predicate HostFits(w: World) {
    && HostAt(w) && RefOf(w).name != ""
    && var h := HostOf(w);
       var spec := w.install.value.spec;
       && (|| h.externallyProvisioned || h.inspectDisabled
           || (&& h.state == Available && h.nics.Some?
               && Accepts(spec.machineNetwork, spec.machineNetworks, h.nics.value)))
       && (h.managed || h.state == Available || h.state == ExternallyProvisioned)
  }

  /** An image that already exists is not on its way out. */
  predicate ImageFits(w: World) {
    HostAt(w) && (RefOf(w) in w.images ==> !w.images[RefOf(w)].terminating && w.images[RefOf(w)].created <= w.now)
  }

  /** The deployment exists and does not contradict what is stored for it. */
  predicate DeploymentFits(w: World) {
    && w.install.Some?
    && w.install.value.spec.deployment.Some? && w.install.value.spec.deployment.value != ""
    && w.install.value.spec.deployment.value in w.deployments
    && var name := w.install.value.spec.deployment.value;
       var d := w.deployments[name];
       var seed := Content(w.secrets, SecretName(SeedReconfiguration, name));
       var metadata := w.install.value.spec.metadata;
       && !MetadataPanics(metadata, name)
       && (MetadataComplete(metadata, name) || seed.None? || Decode(seed.value).Some?)
       && (|| ImageReady(w, w.install.value.uid)
           || IdentityOf(w.secrets, name).None?
           || (&& Decode(IdentityOf(w.secrets, name).value.seed).Some?
               && d.baseDomain == Decode(IdentityOf(w.secrets, name).value.seed).value.baseDomain
               && d.clusterName == Decode(IdentityOf(w.secrets, name).value.seed).value.clusterName))
  }

  predicate Fits(w: World) {
    HostFits(w) && ImageFits(w) && DeploymentFits(w)
  }

  /** Neither started nor in the way of a start. */
  predicate Waiting(i: Install) {
    && !i.deleting && !FreshFromBackup(i) && !InstallationCompleted(i)
    && i.status.host.None? && i.status.bootTime.None?
  }

  predicate Qualifies(w: World) {
    w.install.Some? && Waiting(w.install.value) && Fits(w)
  }

  /** The image exists and is old enough, or becomes so in this very call. */
  predicate Cooled(o: Options, w: World)
    requires HostAt(w)
  {
    if RefOf(w) in w.images then w.images[RefOf(w)].created + o.coolDown <= w.now else o.coolDown == 0
  }

  // --------------------------------------------------------- the phases

  lemma ConfigurationWorks(w: World, list: seq<Condition>, f: MainFaults)
    requires Undisturbed(f) && Fits(w)
    ensures var d := w.deployments[w.install.value.spec.deployment.value];
            var a := Configuration(w, list, Some(d), f);
      && a.Proceed? && a.w == w.(hosts := a.w.hosts) && Fits(a.w)
      && RefOf(a.w) == RefOf(w)
  {
    hide Accepts, IdentityOf, Content;
  }

  lemma HostValidationWorks(w: World, list: seq<Condition>, f: MainFaults)
    requires Undisturbed(f) && Fits(w)
    ensures var b := HostValidation(w, list, f);
      && b.Proceed? && b.w == w.(hosts := b.w.hosts) && Fits(b.w)
      && RefOf(b.w) == RefOf(w)
  {
    hide Accepts, IdentityOf, Content;
  }

  /** The deployment fits and the metadata is complete. */
  predicate Buildworthy(w: World) {
    DeploymentFits(w) && MetadataComplete(w.install.value.spec.metadata, w.install.value.spec.deployment.value)
  }

  lemma SetMetadataWorks(w: World, list: seq<Condition>, f: MainFaults)
    requires Undisturbed(f) && Fits(w)
    ensures var name := w.install.value.spec.deployment.value;
            var c := SetMetadata(w, list, name, w.deployments[name], f);
      && c.Proceed? && Fits(c.w) && Buildworthy(c.w)
      && c.w == w.(install := Some(WithMetadata(w.install.value, c.w.install.value.spec.metadata)))
  {
    hide Accepts;
  }

  lemma BeforeImageWorks(w: World, list: seq<Condition>, f: MainFaults)
    requires Undisturbed(f) && Fits(w)
    ensures var d := w.deployments[w.install.value.spec.deployment.value];
            var c := BeforeImage(w, list, Some(d), f);
      && c.Proceed? && Fits(c.w) && Buildworthy(c.w)
      && c.w == w.(install := Some(WithMetadata(w.install.value, c.w.install.value.spec.metadata)), hosts := c.w.hosts)
  {
    var d := w.deployments[w.install.value.spec.deployment.value];
    hide Fits, Buildworthy, Undisturbed, Configuration, HostValidation, SetMetadata;
    ConfigurationWorks(w, list, f);
    var a := Configuration(w, list, Some(d), f);
    HostValidationWorks(a.w, list, f);
    var b := HostValidation(a.w, list, f);
    SetMetadataWorks(b.w, list, f);
  }

  lemma ImageCreationWorks(w: World, list: seq<Condition>, f: MainFaults)
    requires Undisturbed(f) && Fits(w) && Buildworthy(w)
    ensures var name := w.install.value.spec.deployment.value;
            var d := ImageCreation(w, list, name, w.deployments[name], f);
      && d.Proceed? && Fits(d.w)
      && d.w == w.(secrets := d.w.secrets, dirs := d.w.dirs)
  {
    hide Accepts, IdentityOf, Content, WriteInputData;
    var name := w.install.value.spec.deployment.value;
    var c := ConfigFor(w.install.value.spec.metadata, w.deployments[name], f.configRest);
    SmoothBuildSucceedsIff(w.secrets, DirOf(w, w.install.value.uid), name, c, f.build);
    BuildDoneMirrors(w.secrets, DirOf(w, w.install.value.uid), name, c, f.build);
  }

  lemma AttachImageWorks(o: Options, w: World, list: seq<Condition>, f: MainFaults)
    requires Undisturbed(f) && Fits(w)
    ensures var p := AttachImage(o, w, list, f);
      && (p.Proceed? <==> Cooled(o, w))
      && RefOf(w) in p.w.images && Fits(p.w)
      && (p.Halt? ==> !p.err && p.requeue == RequeueAfter(o.coolDown))
  {
    hide Accepts, IdentityOf, Content, DeploymentFits, SmoothBuild;
    var p := AttachImage(o, w, list, f);
    SameDeploymentFits(w, p.w);
  }

  lemma BootHostWorks(w: World, list: seq<Condition>, f: MainFaults)
    requires Undisturbed(f) && HostFits(w) && RefOf(w) in w.images
    ensures BootHost(w, list, f).Proceed?
  {
    hide Accepts, SmoothBuild;
  }

  lemma HostConfigurationWorks(o: Options, w: World, list: seq<Condition>, f: MainFaults)
    requires Undisturbed(f) && Fits(w) && w.install.value.status.host.None?
    ensures var p := HostConfiguration(o, w, list, f);
      && (p.Proceed? <==> Cooled(o, w))
      && (p.Halt? ==> !p.err && p.requeue == RequeueAfter(o.coolDown) && Fits(p.w) && RefOf(w) in p.w.images
                      && p.w == w.(images := p.w.images))
  {
    assert HostAt(w);
    hide AttachImage, BootHost, Undisturbed, HostFits, ImageFits, DeploymentFits, Cooled;
    var a := AttachImage(o, w, list, f);
    AttachImageWorks(o, w, list, f);
    if a.Proceed? {
      BootHostWorks(a.w, list, f);
    }
  }

  lemma SameDeploymentFits(w: World, v: World)
    requires v == w.(hosts := v.hosts, images := v.images)
    ensures DeploymentFits(w) <==> DeploymentFits(v)
  {
  }

  /** The phases reach the end exactly when the image has cooled down; otherwise they ask to be called again. */
  lemma PhasesWork(o: Options, w: World, list: seq<Condition>, f: MainFaults)
    requires Undisturbed(f) && Fits(w) && w.install.value.status.host.None?
    ensures var d := w.deployments[w.install.value.spec.deployment.value];
            var p := Phases(o, w, list, Some(d), f);
      && (p.Proceed? <==> Cooled(o, w))
      && (p.Halt? ==> !p.err && p.requeue == RequeueAfter(o.coolDown) && Fits(p.w) && RefOf(p.w) in p.w.images
                      && p.w.install.value == WithMetadata(w.install.value, p.w.install.value.spec.metadata)
                      && p.w.now == w.now)
  {
    var name := w.install.value.spec.deployment.value;
    var c := BeforeImage(w, list, Some(w.deployments[name]), f);
    hide Fits, Buildworthy, Undisturbed, BeforeImage, ImageCreation, HostConfiguration;
    BeforeImageWorks(w, list, f);
    ImageCreationWorks(c.w, c.list, f);
    var e := ImageCreation(c.w, c.list, name, w.deployments[name], f);
    HostConfigurationWorks(o, e.w, c.list, f);
  }

  // ------------------------------------------------------ one reconcile

  /** The start is recorded and reported, and the image is on disk. */
  predicate Started(w: World) {
    Underway(w) && w.install.value.status.host.Some? && SaysMet(Stored(w))
  }

  /** How many reconciles are still to come, at most. */
  function Rank(o: Options, w: World): (r: nat)
    ensures r <= 3
  {
    if w.install.None? || !w.install.value.finalizer then 3
    else if HostAt(w) && Cooled(o, w) then 1
    else 2
  }

  /** Without a failed patch the list in memory is the stored one. */
  lemma PrepareWorks(w: World, f: MainFaults)
    requires Undisturbed(f) && w.install.Some?
    ensures var p := Prepare(w, Stored(w), f);
      && !p.err && p.list == Stored(p.w)
      && p.w == w.(install := p.w.install)
  {
    hide Initialized, SmoothBuild;
    AnnotateBothTouches(w, Stored(w), f);
  }

  /** Fitting does not depend on annotations and conditions. */
  lemma SameFits(w: World, v: World)
    requires w.install.Some? && v.install.Some? && v == w.(install := v.install)
    requires v.install.value.spec == w.install.value.spec && v.install.value.uid == w.install.value.uid
    ensures Fits(v) <==> Fits(w)
  {
    hide Accepts, IdentityOf, Content;
  }

  /** An undisturbed report is stored. */
  lemma RecordWorks(w: World, r: Report)
    requires w.install.Some?
    ensures var h := RecordReport(w, Stored(w), r, false);
      && h.w == PatchConditions(w, Stored(h.w))
      && StatusOf(Stored(h.w), RequirementsMet) == Some(r.status)
      && Stored(h.w) != []
  {
    hide CondSync, Find, Set, SameProgress, StillReported, StatusOf;
    CondSyncRefl(Stored(w));
    RecordReportEffect(w, Stored(w), r, false);
    assert StatusOf([], RequirementsMet) == None by { NoStatus(); }
  }

  lemma NoStatus()
    ensures StatusOf([], RequirementsMet) == None
  {
  }

  /** The call has started the installation and reported it. */
  predicate StartOutcome(out: Outcome) {
    && !out.err && out.requeue == NoRequeue
    && out.w.install.Some?
    && SaysMet(Stored(out.w))
    && out.w.install.value.status.host.Some?
    && ImageReady(out.w, out.w.install.value.uid)
  }

  /** The call has left an image to cool down and asks to be repeated. */
  predicate CoolOutcome(o: Options, w: World, out: Outcome)
    requires w.install.Some?
  {
    && !out.err && out.requeue == RequeueAfter(o.coolDown)
    && Fits(out.w) && RefOf(out.w) in out.w.images
    && out.w.now == w.now
    && Stored(out.w) != []
    && out.w.install.value.status.host == w.install.value.status.host
    && out.w.install.value.status.bootTime == w.install.value.status.bootTime
  }

  lemma ReadyHasImage(o: Options, w: World, name: string)
    requires ReadyToBoot(o, w, name)
    ensures w.install.Some? && ImageReady(w, w.install.value.uid)
  {
  }

  /** Undisturbed, cooled phases reach the end with the image in place; the conditions are still the stored ones. */
  lemma PhasesStart(o: Options, w: World, f: MainFaults)
    requires Undisturbed(f) && Fits(w) && w.install.value.status.host.None? && Cooled(o, w)
    ensures var d := w.deployments[w.install.value.spec.deployment.value];
            var p := Phases(o, w, Stored(w), Some(d), f);
      && p.Proceed? && p.w.install.value.status.host.Some? && ImageReady(p.w, p.w.install.value.uid)
      && p.list == Stored(p.w)
  {
    var d := w.deployments[w.install.value.spec.deployment.value];
    var p := Phases(o, w, Stored(w), Some(d), f);
    hide Phases, Fits, SmoothBuild, ReadyToBoot, InstallStep, Core, Built, ImagesStep, Cooled;
    PhasesWork(o, w, Stored(w), f);
    PhasesEffect(o, w, Stored(w), Some(d), f);
    PhasesReady(o, w, Stored(w), Some(d), f);
    ReadyHasImage(o, p.w, w.install.value.spec.deployment.value);
    InstallStepCore(w.install.value, p.w.install.value, w.now);
  }

  lemma ReportedStart(w: World)
    requires w.install.Some? && w.install.value.status.host.Some? && ImageReady(w, w.install.value.uid)
    ensures StartOutcome(Outcome(RecordReport(w, Stored(w), MET, false).w, NoRequeue, false, Some(MET)))
  {
    hide RecordReport, Find, Built;
    RecordWorks(w, MET);
  }

  lemma RunPhasesStart(o: Options, w: World, f: MainFaults)
    requires Smooth(f) && Fits(w) && w.install.value.status.host.None? && Cooled(o, w)
    ensures var d := w.deployments[w.install.value.spec.deployment.value];
            StartOutcome(RunPhases(o, w, Stored(w), Some(d), f))
  {
    var d := w.deployments[w.install.value.spec.deployment.value];
    hide Phases, Fits, Undisturbed, StartOutcome, RecordReport, Cooled, ImageReady;
    PhasesStart(o, w, f);
    ReportedStart(Phases(o, w, Stored(w), Some(d), f).w);
  }

  lemma RunPhasesCool(o: Options, w: World, f: MainFaults)
    requires Smooth(f) && Fits(w) && w.install.value.status.host.None? && !Cooled(o, w)
    ensures var d := w.deployments[w.install.value.spec.deployment.value];
            CoolOutcome(o, w, RunPhases(o, w, Stored(w), Some(d), f))
  {
    var d := w.deployments[w.install.value.spec.deployment.value];
    var p := Phases(o, w, Stored(w), Some(d), f);
    hide Phases, Fits, Find, SmoothBuild, RecordReport, Cooled;
    PhasesWork(o, w, Stored(w), f);
    PhasesEffect(o, w, Stored(w), Some(d), f);
    var h := RecordReport(p.w, Stored(p.w), p.report, false);
    RecordWorks(p.w, p.report);
    SameFits(p.w, h.w);
  }

  lemma ActiveRunsPhases(o: Options, w: World, f: MainFaults)
    requires Undisturbed(f) && Qualifies(w)
    ensures var d := w.deployments[w.install.value.spec.deployment.value];
            var p := Prepare(w, Stored(w), f);
            Active(o, w, f) == RunPhases(o, p.w, Stored(p.w), Some(d), f)
  {
    var d := w.deployments[w.install.value.spec.deployment.value];
    assert LookUpDeployment(w, f) == Some(d);
    hide Fits, Find, SmoothBuild, Prepare, RunPhases;
    assert Repair(w, f) == Held(w, Stored(w));
    PrepareWorks(w, f);
  }

  lemma PreparedFits(o: Options, w: World, f: MainFaults)
    requires Undisturbed(f) && Qualifies(w)
    ensures var p := Prepare(w, Stored(w), f);
      && Touched(w, p.w) && Fits(p.w)
      && (Cooled(o, p.w) <==> Cooled(o, w))
  {
    hide Fits, CondSync, SmoothBuild, Prepare, SaysMet, StillReported, Filled, AllReported, Waiting, Core;
    var p := Prepare(w, Stored(w), f);
    CondSyncRefl(Stored(w));
    PrepareEffect(w, Stored(w), f);
    TouchedUid(w, p.w);
    SameFits(w, p.w);
  }

  lemma TouchedUid(w: World, v: World)
    requires Touched(w, v)
    ensures v.install.value.uid == w.install.value.uid
  {
    CoreFields(w.install.value, v.install.value);
  }

  /** One undisturbed call on an installation that has its finalizer starts it, or leaves an image to cool down. */
  lemma ActiveWorks(o: Options, w: World, f: MainFaults)
    requires Smooth(f) && Qualifies(w)
    ensures var out := Active(o, w, f);
      if Cooled(o, w) then StartOutcome(out) else CoolOutcome(o, w, out)
  {
    var p := Prepare(w, Stored(w), f);
    hide Fits, Prepare, RunPhases, StartOutcome, Core, Cooled, Active, SmoothBuild, Find;
    ActiveRunsPhases(o, w, f);
    PreparedFits(o, w, f);
    if Cooled(o, w) {
      RunPhasesStart(o, p.w, f);
    } else {
      RunPhasesCool(o, p.w, f);
    }
  }

  lemma ActiveStays(o: Options, w: World, f: MainFaults)
    requires w.install.Some? && !InstallationCompleted(w.install.value)
    ensures var v := Active(o, w, f).w;
      && v.install.Some?
      && v.install.value.deleting == w.install.value.deleting
      && v.install.value.finalizer == w.install.value.finalizer
      && v.install.value.restoreLabel == w.install.value.restoreLabel
      && !InstallationCompleted(v.install.value)
      && (NewlyStarted(w, v) ==> v.install.value.status.bootTime.Some?)
  {
    hide Active, ReadyToBoot, ImagesStep, StillReported, SaysMet, AllReported;
    ActiveEffect(o, w, f);
    CoreFields(w.install.value, Active(o, w, f).w.install.value);
  }

  /** The call was made and `extra` seconds more than it asked for have passed. */
  function Later(out: Outcome, extra: nat): World {
    var asked := if out.requeue.RequeueAfter? && out.requeue.seconds > 0 then out.requeue.seconds else 0;
    out.w.(now := out.w.now + extra + asked)
  }

  lemma FirstCall(o: Options, w: World, f: MainFaults, extra: nat)
    requires Smooth(f) && Qualifies(w) && !w.install.value.finalizer
    ensures var out := MainReconcile(o, w, f); var v := Later(out, extra);
      !out.err && Qualifies(v) && v.install.value.finalizer
  {
    hide Active, Finalize, IdentityOf, Content, Accepts, SmoothBuild, Find;
  }

  lemma StartCall(o: Options, w: World, f: MainFaults, extra: nat)
    requires Smooth(f) && Qualifies(w) && w.install.value.finalizer && Cooled(o, w)
    ensures var out := MainReconcile(o, w, f); !out.err && Started(Later(out, extra))
  {
    assert MainReconcile(o, w, f) == Active(o, w, f) by { hide Active, Finalize, Find, Fits; }
    hide MainReconcile, Active, Fits, SmoothBuild, Find, SaysMet;
    ActiveWorks(o, w, f);
    ActiveStays(o, w, f);
  }

  lemma CoolCall(o: Options, w: World, f: MainFaults, extra: nat)
    requires Smooth(f) && Qualifies(w) && w.install.value.finalizer && !Cooled(o, w)
    ensures var out := MainReconcile(o, w, f); var v := Later(out, extra);
      !out.err && Qualifies(v) && v.install.value.finalizer && Cooled(o, v)
  {
    assert MainReconcile(o, w, f) == Active(o, w, f) by { hide Active, Finalize, Find, Fits; }
    hide MainReconcile, Active, SmoothBuild, Find, HostFits, DeploymentFits;
    ActiveWorks(o, w, f);
    ActiveStays(o, w, f);
    var out := MainReconcile(o, w, f);
    LaterFits(out.w, Later(out, extra));
  }

  lemma LaterFits(w: World, v: World)
    requires Fits(w) && w.now <= v.now && v == w.(now := v.now)
    ensures Fits(v)
  {
    hide IdentityOf, Content, Accepts;
  }

  /** Every undisturbed call on a qualifying installation succeeds and either starts it or brings the start closer. */
  lemma CallBringsStartCloser(o: Options, w: World, f: MainFaults, extra: nat)
    requires Smooth(f) && Qualifies(w)
    ensures var out := MainReconcile(o, w, f); var v := Later(out, extra);
      !out.err && (Started(v) || (Qualifies(v) && Rank(o, v) < Rank(o, w)))
  {
    if !w.install.value.finalizer {
      FirstCall(o, w, f, extra);
    } else if Cooled(o, w) {
      StartCall(o, w, f, extra);
    } else {
      CoolCall(o, w, f, extra);
    }
  }

  /** Once started, no reconcile, disturbed or not, changes anything. */
  lemma StartedIsStable(o: Options, w: World, f: MainFaults, extra: nat)
    requires Started(w)
    ensures MainReconcile(o, w, f).w == w && Started(Later(MainReconcile(o, w, f), extra))
  {
    hide MainReconcile;
    UnderwayOnlyRepairs(o, w, f);
  }

  datatype Call = Call(faults: MainFaults, extra: nat)

  /** The world after a sequence of calls, each made no earlier than the one before it asked for. */
  function Drive(o: Options, w: World, calls: seq<Call>): World
    decreases |calls|
  {
    if calls == [] then w
    else Drive(o, Later(MainReconcile(o, w, calls[0].faults), calls[0].extra), calls[1..])
  }

  lemma {:induction false} StartedForGood(o: Options, w: World, calls: seq<Call>)
    requires Started(w)
    ensures Started(Drive(o, w, calls))
    ensures Drive(o, w, calls) == w.(now := Drive(o, w, calls).now)
    decreases |calls|
  {
    hide Started, MainReconcile;
    if calls != [] {
      StartedIsStable(o, w, calls[0].faults, calls[0].extra);
      StartedForGood(o, Later(MainReconcile(o, w, calls[0].faults), calls[0].extra), calls[1..]);
    }
  }

  lemma {:induction false} DriveInTwo(o: Options, w: World, a: seq<Call>, b: seq<Call>)
    ensures Drive(o, w, a + b) == Drive(o, Drive(o, w, a), b)
    decreases |a|
  {
    hide MainReconcile, Later;
    if a == [] {
      assert a + b == b;
    } else {
      assert (a + b)[0] == a[0] && (a + b)[1..] == a[1..] + b;
      DriveInTwo(o, Later(MainReconcile(o, w, a[0].faults), a[0].extra), a[1..], b);
    }
  }

  lemma {:induction false} RankBoundsCalls(o: Options, w: World, calls: seq<Call>)
    requires Qualifies(w) && |calls| >= Rank(o, w)
    requires forall k :: 0 <= k < Rank(o, w) ==> Smooth(calls[k].faults)
    ensures Started(Drive(o, w, calls))
    decreases |calls|
  {
    hide Started, MainReconcile, Later, Qualifies, Smooth;
    var v := Later(MainReconcile(o, w, calls[0].faults), calls[0].extra);
    CallBringsStartCloser(o, w, calls[0].faults, calls[0].extra);
    if Started(v) {
      StartedForGood(o, v, calls[1..]);
    } else {
      RankBoundsCalls(o, v, calls[1..]);
    }
  }

  /**
   If everything an installation asks for is there, three undisturbed reconciles, each made when the one before it
   asks for it or later, start it and report that the requirements are met; no later reconcile changes anything.
   */
  lemma ThreeCallsStartTheInstallation(o: Options, w: World, calls: seq<Call>)
    requires Qualifies(w) && |calls| >= 3
    requires Smooth(calls[0].faults) && Smooth(calls[1].faults) && Smooth(calls[2].faults)
    ensures Started(Drive(o, w, calls[..3])) && Started(Drive(o, w, calls))
    ensures Drive(o, w, calls) == Drive(o, w, calls[..3]).(now := Drive(o, w, calls).now)
  {
    hide Started, MainReconcile, Qualifies, Smooth, Drive;
    RankBoundsCalls(o, w, calls[..3]);
    assert calls == calls[..3] + calls[3..];
    DriveInTwo(o, w, calls[..3], calls[3..]);
    StartedForGood(o, Drive(o, w, calls[..3]), calls[3..]);
  }

  // ------------------------------------------------------- a lost report

  /**
   If the very first report of a qualifying installation is the one that says True, and it is lost, the installation
   is started, its RequirementsMet condition says Unknown, and no later reconcile changes that.
   */
  lemma LosingTheFirstReport(o: Options, w: World, f: MainFaults)
    requires Inv(w) && Qualifies(w) && w.install.value.finalizer && Cooled(o, w)
    requires Undisturbed(f) && f.report
    requires StatusOf(Stored(w), RequirementsMet) == None || HasStatus(Stored(w), RequirementsMet, Unknown)
    ensures var v := MainReconcile(o, w, f).w;
      && Underway(v)
      && HasStatus(Stored(v), RequirementsMet, Unknown)
      && forall g :: MainReconcile(o, v, g).w == v
  {
    assert MainReconcile(o, w, f) == Active(o, w, f) by { hide Active, Finalize, Find, Fits; }
    var p := Prepare(w, Stored(w), f);
    var d := w.deployments[w.install.value.spec.deployment.value];
    assert w.install.value.status.host.None?;
    hide MainReconcile, Active, Fits, Prepare, Phases, Inv, Waiting, SmoothBuild, Find, Cooled, Core;
    ActiveRunsPhases(o, w, f);
    PreparedFits(o, w, f);
    PhasesWork(o, p.w, Stored(p.w), f);
    assert MainReconcile(o, w, f).report == Some(MET);
    LostReportStaysUnknown(o, w, f);
  }

  // ------------------------------------------------------ the completion

  predicate SmoothRemoval(f: RemovalFaults) {
    !f.getImage && f.deleteImage == Fine && !f.getHost && f.patchHost == Fine
  }

  predicate SmoothWatch(f: MonitorFaults) {
    !f.getInstall && !f.getHost && !f.getImage && !f.spokeClient && SmoothRemoval(f.removal)
    && !f.recheckImage && f.record == Fine
  }

  /** Started, not completed, on a powered-on host, and the cluster can be asked. */
  predicate Running(w: World) {
    && Watched(w) && KubeconfigAt(w.secrets, w.install.value.spec.metadata)
    && w.install.value.status.host.Some? && w.install.value.status.host.value in w.hosts
    && w.hosts[w.install.value.status.host.value].poweredOn
    && !Terminating(w, w.install.value.status.host.value)
  }

  /**
   An undisturbed call of the monitor on a running, installed cluster removes the data image: if it is gone at once,
   completion is recorded in the same call; otherwise the image is terminating, the host is asked to reboot, and the
   monitor comes back in a minute.
   */
  lemma InstalledClusterCompletes(o: Options, w: World, f: MonitorFaults)
    requires Running(w) && SmoothWatch(f) && IsInstalled(f.spoke)
    ensures var out := MonitorReconcile(o, w, f); var ref := w.install.value.status.host.value;
      && !out.err && out.w.install.Some?
      && (if ref in w.images && !f.removal.gone
          then && Terminating(out.w, ref) && out.w.hosts[ref].reboot
               && ShowsInProgress(Stored(out.w)) && out.requeue == RequeueAfter(60)
          else ref !in out.w.images && ShowsInstalled(Stored(out.w)) && out.requeue == NoRequeue)
  {
    hide IsInstalled, SetProgress, InstallStatus, Wait, Find;
    var ref := w.install.value.status.host.value;
    var r := RemoveDataImage(w, ref, f.removal);
    assert MonitorReconcile(o, w, f) == Complete(w, w.install.value, ref, f);
    ProgressShows(Stored(w), w.now, AWAITING_DELETION, 0);
  }

  /** The data image is gone, because the host has rebooted. */
  function ImageGone(w: World, ref: HostRef): World {
    w.(images := w.images - {ref})
  }

  /** Two undisturbed calls of the monitor on an installed cluster, with the image gone in between, complete it. */
  lemma TwoCallsCompleteTheInstallation(o: Options, w: World, f: MonitorFaults, g: MonitorFaults)
    requires Running(w) && SmoothWatch(f) && SmoothWatch(g) && IsInstalled(f.spoke) && IsInstalled(g.spoke)
    requires w.install.value.status.host.value in w.images && !f.removal.gone
    ensures var ref := w.install.value.status.host.value;
            var u := ImageGone(MonitorReconcile(o, w, f).w, ref);
            var out := MonitorReconcile(o, u, g);
      && !out.err && out.requeue == NoRequeue
      && out.w.install.Some? && ShowsInstalled(Stored(out.w)) && InstallationCompleted(out.w.install.value)
  {
    hide MonitorReconcile, IsInstalled, Find, Recordable, InstallationCompleted, SmoothRemoval;
    var ref := w.install.value.status.host.value;
    var v := MonitorReconcile(o, w, f).w;
    InstalledClusterCompletes(o, w, f);
    MonitorEffect(o, w, f);
    PoweredStays(o, w, f);
    InProgressIsNotCompleted(v);
    InstalledClusterCompletes(o, ImageGone(v, ref), g);
    ShownIsCompleted(MonitorReconcile(o, ImageGone(v, ref), g).w);
  }

  lemma InProgressIsNotCompleted(w: World)
    requires w.install.Some? && ShowsInProgress(Stored(w))
    ensures !InstallationCompleted(w.install.value)
  {
  }

  lemma ShownIsCompleted(w: World)
    requires w.install.Some? && ShowsInstalled(Stored(w))
    ensures InstallationCompleted(w.install.value)
  {
  }

  lemma RemovalKeepsPower(w: World, ref: HostRef, f: RemovalFaults)
    ensures var v := RemoveDataImage(w, ref, f).w;
      ref in w.hosts ==> ref in v.hosts && v.hosts[ref].poweredOn == w.hosts[ref].poweredOn
  {
  }

  /** Removing the image leaves the power of the host alone. */
  lemma PoweredStays(o: Options, w: World, f: MonitorFaults)
    requires Running(w) && SmoothWatch(f) && IsInstalled(f.spoke)
    ensures var v := MonitorReconcile(o, w, f).w; var ref := w.install.value.status.host.value;
            ref in v.hosts && v.hosts[ref].poweredOn
  {
    hide IsInstalled, Wait, Find, RecordProgress, RemoveDataImage, SmoothRemoval;
    var ref := w.install.value.status.host.value;
    assert MonitorReconcile(o, w, f) == Complete(w, w.install.value, ref, f);
    RemovalKeepsPower(w, ref, f.removal);
  }
}
