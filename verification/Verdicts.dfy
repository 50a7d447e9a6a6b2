/**
 What a call of the main controller says about an installation, read off the state before the call and the failures it
 may meet. The phases change hosts, metadata, secrets, files and images on their way; the verdict does not have to
 follow them.
 */
module Verdicts {
  import opened Base
  import opened Conditions
  import opened Credentials
  import opened ImageBuild
  import opened MachineNetworks
  import opened Hub
  import opened MainReconciler
  import opened MainEffects
  import opened Reports
  import InfraId
  import Identity

  /** The RequirementsMet condition, when to come back, and whether the call ends with an error. */
  datatype Verdict = Verdict(report: Report, requeue: Requeue, err: bool)

  function Awaits(reason: Reason, text: nat, requeue: Requeue): Option<Verdict> {
    Some(Verdict(Report(False, reason, Text(text)), requeue, false))
  }

  function Fails(reason: Reason, message: Message): Option<Verdict> {
    Some(Verdict(Report(False, reason, message), NoRequeue, true))
  }

  // --------------------------------------------------------- the verdict

  /** A deployment and a host are named, both are found, and automated cleaning is or can be switched off. */
  function ReferenceVerdict(w: World, f: MainFaults): Option<Verdict>
    requires w.install.Some?
  {
    var spec := w.install.value.spec;
    if spec.deployment.None? || spec.deployment.value == "" then Awaits(ConfigurationPending, 10, NoRequeue)
    else if f.getDeployment || spec.deployment.value !in w.deployments then Awaits(ConfigurationPending, 11, NoRequeue)
    else if spec.host.None? || spec.host.value.name == "" then Awaits(ConfigurationPending, 12, NoRequeue)
    else if f.getHost || spec.host.value !in w.hosts then Awaits(ConfigurationPending, 13, NoRequeue)
    else if !w.hosts[spec.host.value].cleaningDisabled && f.cleaning != Fine then Fails(ConfigurationFailed, Text(14))
    else None
  }

  /** The host has been taken before, or is not to be inspected, or was inspected and fits; and it can be taken. */
  function HostVerdict(w: World, f: MainFaults): Option<Verdict>
    requires HostAt(w)
  {
    var h, spec := HostOf(w), w.install.value.spec;
    if h.externallyProvisioned then None
    else if !h.inspectDisabled && h.state != Available then Awaits(HostValidationPending, 20, RequeueAfter(30))
    else if !h.inspectDisabled && h.nics.None? then Awaits(HostValidationPending, 21, RequeueAfter(30))
    else if !h.inspectDisabled && !Accepts(spec.machineNetwork, spec.machineNetworks, h.nics.value) then
      Fails(HostValidationFailed, Text(22))
    else if f.external != Fine then Fails(HostValidationFailed, UnknownMessage)
    else None
  }

  predicate HasIds(m: Option<Metadata>) {
    m.Some? && m.value.clusterId != "" && m.value.infraId != ""
  }

  /** The metadata is complete, or can be completed from what is stored, and stored. */
  function MetadataVerdict(w: World, f: MainFaults): Option<Verdict>
    requires w.install.Some? && w.install.value.spec.deployment.Some?
  {
    var m, name := w.install.value.spec.metadata, w.install.value.spec.deployment.value;
    var seed := SecretName(SeedReconfiguration, name);
    var named := HasIds(m) && m.value.kubeconfigSecret == Own(SecretName(AdminKubeconfig, name));
    if named && m.value.passwordSecret.None? then Fails(HostValidationFailed, UnknownMessage)
    else if named && m.value.passwordSecret == Some(Own(SecretName(AdminPassword, name))) then None
    else if seed in w.secrets && w.secrets[seed].Some? && w.secrets[seed] != Some(Empty)
            && !w.secrets[seed].value.ManifestOf? then
      Fails(HostValidationFailed, Text(30))
    else if f.readSeed || f.metadata != Fine then Fails(HostValidationFailed, Text(30))
    else None
  }

  /** The image is on disk with its identity stored, or can be made and stored; and its URL can be printed. */
  function ImageVerdict(w: World, m: Option<Metadata>, f: MainFaults): Option<Verdict>
    requires w.install.Some? && w.install.value.spec.deployment.Some?
    requires w.install.value.spec.deployment.value in w.deployments
  {
    var name := w.install.value.spec.deployment.value;
    var c := ConfigFor(m, w.deployments[name], f.configRest);
    match ExpectedBuild(w.secrets, DirOf(w, w.install.value.uid), name, c, f.build)
    case BuildBusy => Awaits(ImageCreationPending, 41, RequeueAfter(5))
    case BuildFailed => Fails(ImageCreationFailed, Text(40))
    case BuildDone => if f.url then Fails(ImageCreationFailed, Text(42)) else None
  }

  /** The data image exists or can be created, is old enough, and the host can be told to boot from it. */
  function BootVerdict(o: Options, w: World, f: MainFaults): Option<Verdict>
    requires HostAt(w)
  {
    var h, ref := HostOf(w), RefOf(w);
    if f.getImage then Fails(HostConfigurationFailed, Text(50))
    else if ref in w.images && w.images[ref].terminating then Awaits(HostConfigurationPending, 51, RequeueAfter(30))
    else if ref !in w.images && (f.ownerRef || f.createImage != Fine || f.rereadImage) then
      Fails(HostConfigurationFailed, Text(50))
    else if w.now < (if ref in w.images then w.images[ref].created else w.now) + o.coolDown then
      Awaits(HostConfigurationPending, 52, RequeueAfter(o.coolDown))
    else if !h.managed && h.state == OtherState then Awaits(HostConfigurationPending, 54, NoRequeue)
    else if !h.managed && f.provisioning != Fine then Fails(HostConfigurationFailed, Text(53))
    else if w.install.value.status.host.None? && f.boot != Fine then Fails(HostConfigurationFailed, Text(55))
    else None
  }

  function OrElse(a: Option<Verdict>, b: Option<Verdict>): Option<Verdict> {
    if a.Some? then a else b
  }

  /** The first objection, in the order references, host, metadata, image, boot. */
  function Objection(o: Options, w: World, f: MainFaults): Option<Verdict>
    requires w.install.Some?
  {
    if EarlyObjection(w, f).Some? then EarlyObjection(w, f)
    else OrElse(ImageVerdict(w, Identity.NextMetadata(w, f), f), BootVerdict(o, w, f))
  }

  function VerdictOf(o: Options, w: World, f: MainFaults): Verdict
    requires w.install.Some?
  {
    match Objection(o, w, f)
    case Some(v) => v
    case None => Verdict(Report(True, HostConfigurationSucceeded, Text(1)), NoRequeue, false)
  }

  // ----------------------------------------------------------- the build

  /** The three reads stop at the first secret that is missing; a read that fails before that fails the build. */
  predicate ReadFails(s: Secrets, name: string, f: ReadFaults) {
    || f.kubeconfig
    || (&& Content(s, SecretName(AdminKubeconfig, name)).Some?
        && (|| f.password
            || (Content(s, SecretName(AdminPassword, name)).Some? && f.seed)))
  }

  /** A stored identity can be written back under this configuration. */
  predicate Reinstallable(id: IdentityData, c: Config) {
    && id.seed.ManifestOf?
    && id.seed.manifest.baseDomain == c.baseDomain && id.seed.manifest.clusterName == c.clusterName
  }

  predicate RebuildFails(s: Secrets, name: string, c: Config, f: BuildFaults) {
    || f.workDir || f.inputs || ReadFails(s, name, f.read) || f.configs || c.clusterId == "" || c.infraId == ""
    || f.installer.fails
    || (&& IdentityOf(s, name).Some?
        && (|| f.tempDir || f.reinstall.assets || !Reinstallable(IdentityOf(s, name).value, c)
            || f.reinstall.manifest || f.reinstall.kubeconfig || f.reinstall.password))
  }

  /** The identity files of a directory that was complete, was rebuilt from the secrets, or was newly generated. */
  function ExpectedFiles(s: Secrets, dir: Option<WorkDir>, name: string, c: Config, f: BuildFaults): IdentityFiles {
    var d, id := Present(dir), IdentityOf(s, name);
    if Built(d) then IdentityFiles(d.kubeconfig, d.password, d.manifest)
    else if id.Some? && id.value.seed.ManifestOf? then
      var m := id.value.seed.manifest;
      IdentityFiles(Some(id.value.kubeconfig), Some(id.value.password), Some(ManifestOf(
        Manifest(m.passwordHash, m.crypto, c.clusterId, c.infraId, c.baseDomain, c.clusterName, c.rest))))
    else
      var left, g := AfterRemoval(d, f.removal), f.installer.generation;
      IdentityFiles(
        if left.kubeconfig.Some? then left.kubeconfig else Some(KubeconfigOf(g)),
        if left.password.Some? then left.password else Some(PasswordOf(g)),
        if left.manifest.Some? then left.manifest
        else Some(ManifestOf(Manifest(g, g, c.clusterId, c.infraId, c.baseDomain, c.clusterName, c.rest))))
  }

  /** A secret that does not hold its file has to be written. */
  predicate EnsureFails(s: Secrets, n: SecretName, file: Option<Bytes>, f: EnsureFault) {
    f.get || (!(n in s && s[n] == file) && f.write != Fine)
  }

  function ExpectedBuild(s: Secrets, dir: Option<WorkDir>, name: string, c: Config, f: BuildFaults): BuildResult {
    if f.dirs || f.lock then BuildFailed
    else if f.busy then BuildBusy
    else if !Built(Present(dir)) && RebuildFails(s, name, c, f) then BuildFailed
    else
      var files := ExpectedFiles(s, dir, name, c, f);
      if || EnsureFails(s, SecretName(AdminPassword, name), files.password, f.ensure.password)
         || EnsureFails(s, SecretName(AdminKubeconfig, name), files.kubeconfig, f.ensure.kubeconfig)
         || EnsureFails(s, SecretName(SeedReconfiguration, name), files.manifest, f.ensure.seed)
      then BuildFailed
      else BuildDone
  }

  lemma EnsureDelivers(s: Secrets, name: string, files: IdentityFiles, f: EnsureFaults)
    requires files.password.Some? && files.kubeconfig.Some? && files.manifest.Some?
    ensures EnsureCreds(s, name, files, f).err <==>
              || EnsureFails(s, SecretName(AdminPassword, name), files.password, f.password)
              || EnsureFails(s, SecretName(AdminKubeconfig, name), files.kubeconfig, f.kubeconfig)
              || EnsureFails(s, SecretName(SeedReconfiguration, name), files.manifest, f.seed)
  {
  }

  lemma ReadDelivers(s: Secrets, name: string, f: ReadFaults)
    ensures var r := ReadIdentity(s, name, f);
            (r.err <==> ReadFails(s, name, f)) && (!r.err ==> r.data == IdentityOf(s, name))
  {
    hide Content;
  }

  lemma RebuildDelivers(s: Secrets, prior: WorkDir, name: string, c: Config, f: BuildFaults)
    ensures var r := Rebuild(s, prior, name, c, f);
      && (r.err <==> RebuildFails(s, name, c, f))
      && (!r.err && !Built(prior) ==> Built(r.dir) && Files(r.dir) == ExpectedFiles(s, Some(prior), name, c, f))
  {
    hide ReadIdentity, ReadFails, IdentityOf;
    ReadDelivers(s, name, f.read);
  }

  /** A build ends as it should, whatever fails in it; and when it is done, the files are those that were to be made. */
  lemma BuildDelivers(s: Secrets, dir: Option<WorkDir>, name: string, c: Config, f: BuildFaults)
    ensures var r := WriteInputData(s, dir, name, c, f);
      && r.result == ExpectedBuild(s, dir, name, c, f)
      && (r.result == BuildDone ==> r.dir.Some? && Files(r.dir.value) == ExpectedFiles(s, dir, name, c, f))
  {
    hide Rebuild, RebuildFails, EnsureCreds, EnsureFails, IdentityOf, AfterRemoval;
    var d := Present(dir);
    if !f.dirs && !f.lock && !f.busy {
      if Built(d) {
        EnsureDelivers(s, name, Files(d), f.ensure);
      } else {
        RebuildDelivers(s, d, name, c, f);
        var r := Rebuild(s, d, name, c, f);
        if !r.err {
          EnsureDelivers(s, name, Files(r.dir), f.ensure);
        }
      }
    }
  }

  // ----------------------------------------------------- phase by phase

  /** A phase ends the call with this verdict, or hands over if there is none. */
  predicate Delivers(p: Phase, v: Option<Verdict>) {
    match v
    case None => p.Proceed?
    case Some(x) => p.Halt? && Verdict(p.report, p.requeue, p.err) == x
  }

  lemma ConfigurationDelivers(w: World, list: seq<Condition>, f: MainFaults)
    requires w.install.Some?
    ensures var p := Configuration(w, list, LookUpDeployment(w, f), f);
      && Delivers(p, ReferenceVerdict(w, f))
      && (p.Proceed? ==>
            && HostAt(p.w) && HostAt(w) && RefOf(p.w) == RefOf(w)
            && HostVerdict(p.w, f) == HostVerdict(w, f)
            && HostOf(p.w).managed == HostOf(w).managed && HostOf(p.w).state == HostOf(w).state)
  {
    hide Accepts;
  }

  lemma HostValidationDelivers(w: World, list: seq<Condition>, f: MainFaults)
    requires HostAt(w)
    ensures Delivers(HostValidation(w, list, f), HostVerdict(w, f))
  {
    hide Accepts;
  }

  lemma HostValidationKeeps(w: World, list: seq<Condition>, f: MainFaults)
    requires HostAt(w)
    ensures var p := HostValidation(w, list, f);
      && RefOf(p.w) == RefOf(w)
      && HostOf(p.w).managed == HostOf(w).managed && HostOf(p.w).state == HostOf(w).state
  {
    hide Accepts;
    var taken := HostOf(w).(externallyProvisioned := true);
    assert HostValidation(w, list, f).w == w || HostValidation(w, list, f).w == PatchHost(w, taken);
    hide HostValidation;
  }

  lemma SetMetadataDelivers(w: World, list: seq<Condition>, f: MainFaults)
    requires Identity.DeploymentExists(w)
    ensures var name := w.install.value.spec.deployment.value;
            var p := SetMetadata(w, list, name, w.deployments[name], f);
      && Delivers(p, MetadataVerdict(w, f))
      && (p.Proceed? ==> p.w.install.value.spec.metadata == Identity.NextMetadata(w, f))
  {
    hide NewMetadata, MetadataPanics, MetadataComplete;
    var m, name := w.install.value.spec.metadata, w.install.value.spec.deployment.value;
    NewMetadataIff(m, w.secrets, name, w.deployments[name].clusterName, f);
    MetadataCases(m, name);
  }

  lemma NewMetadataIff(m: Option<Metadata>, s: Secrets, name: string, clusterName: string, f: MainFaults)
    ensures var seed := SecretName(SeedReconfiguration, name);
      NewMetadata(m, s, name, clusterName, f).None? <==>
        f.readSeed || (seed in s && s[seed].Some? && s[seed] != Some(Empty) && !s[seed].value.ManifestOf?)
  {
    hide InfraId.Generate;
  }

  lemma MetadataCases(m: Option<Metadata>, name: string)
    ensures var named := HasIds(m) && m.value.kubeconfigSecret == Own(SecretName(AdminKubeconfig, name));
      && (MetadataPanics(m, name) <==> named && m.value.passwordSecret.None?)
      && (MetadataComplete(m, name) <==> named && m.value.passwordSecret == Some(Own(SecretName(AdminPassword, name))))
  {
  }

  lemma ImageCreationDelivers(w: World, list: seq<Condition>, name: string, f: MainFaults)
    requires w.install.Some? && w.install.value.spec.deployment == Some(name) && name in w.deployments
    ensures Delivers(ImageCreation(w, list, name, w.deployments[name], f),
                     ImageVerdict(w, w.install.value.spec.metadata, f))
  {
    hide WriteInputData, ExpectedBuild, ExpectedFiles;
    var c := ConfigFor(w.install.value.spec.metadata, w.deployments[name], f.configRest);
    BuildDelivers(w.secrets, DirOf(w, w.install.value.uid), name, c, f.build);
  }

  lemma HostConfigurationDelivers(o: Options, w: World, list: seq<Condition>, f: MainFaults)
    requires HostAt(w)
    ensures Delivers(HostConfiguration(o, w, list, f), BootVerdict(o, w, f))
  {
    hide RecordBoot, UpdateProvisioning;
    var a := AttachImage(o, w, list, f);
    if a.Proceed? {
      UpdateProvisioningDelivers(a.w, list, f);
      var b := UpdateProvisioning(a.w, list, f);
      if b.Proceed? {
        RecordBootDelivers(b.w, list, f);
      }
    }
  }

  lemma UpdateProvisioningDelivers(w: World, list: seq<Condition>, f: MainFaults)
    requires HostAt(w) && RefOf(w) in w.images
    ensures Delivers(UpdateProvisioning(w, list, f),
                     if HostOf(w).managed then None
                     else if HostOf(w).state == OtherState then Awaits(HostConfigurationPending, 54, NoRequeue)
                     else if f.provisioning != Fine then Fails(HostConfigurationFailed, Text(53)) else None)
  {
  }

  lemma RecordBootDelivers(w: World, list: seq<Condition>, f: MainFaults)
    requires w.install.Some?
    ensures Delivers(RecordBoot(w, list, f),
                     if w.install.value.status.host.None? && f.boot != Fine
                     then Fails(HostConfigurationFailed, Text(55)) else None)
  {
  }

  lemma SameImageVerdict(w: World, v: World, m: Option<Metadata>, f: MainFaults)
    requires w.install.Some? && w.install.value.spec.deployment.Some?
    requires w.install.value.spec.deployment.value in w.deployments
    requires v == w.(install := v.install, hosts := v.hosts) && v.install.Some?
    requires v.install.value.uid == w.install.value.uid
    requires v.install.value.spec.deployment == w.install.value.spec.deployment
    ensures ImageVerdict(v, m, f) == ImageVerdict(w, m, f)
  {
    hide ExpectedBuild;
  }

  /** The first objection of phases 1 and 2 and of the metadata. */
  function EarlyObjection(w: World, f: MainFaults): (r: Option<Verdict>)
    requires w.install.Some?
    ensures r.None? ==> HostAt(w) && Identity.DeploymentExists(w)
  {
    if ReferenceVerdict(w, f).Some? then ReferenceVerdict(w, f) else OrElse(HostVerdict(w, f), MetadataVerdict(w, f))
  }

  lemma BeforeImageDelivers(w: World, list: seq<Condition>, f: MainFaults)
    requires w.install.Some?
    ensures var p := BeforeImage(w, list, LookUpDeployment(w, f), f);
      && Delivers(p, EarlyObjection(w, f))
      && (p.Proceed? ==>
            && HostAt(p.w) && HostAt(w) && RefOf(p.w) == RefOf(w) && Identity.DeploymentExists(w)
            && p.w == w.(install := p.w.install, hosts := p.w.hosts)
            && p.w.install.value == WithMetadata(w.install.value, Identity.NextMetadata(w, f))
            && HostOf(p.w).managed == HostOf(w).managed && HostOf(p.w).state == HostOf(w).state)
  {
    hide Configuration, HostValidation, SetMetadata, ReferenceVerdict, HostVerdict, MetadataVerdict,
         Identity.NextMetadata;
    var d := LookUpDeployment(w, f);
    var a := Configuration(w, list, d, f);
    ConfigurationDelivers(w, list, f);
    if a.Proceed? {
      ReferencesExist(w, f);
      var b := HostValidation(a.w, list, f);
      HostValidationDelivers(a.w, list, f);
      HostValidationKeeps(a.w, list, f);
      if b.Proceed? {
        SetMetadataDelivers(b.w, list, f);
        SameMetadataVerdict(w, b.w, f);
      }
    }
  }

  lemma SameMetadataVerdict(w: World, v: World, f: MainFaults)
    requires Identity.DeploymentExists(w) && v == w.(hosts := v.hosts)
    ensures MetadataVerdict(v, f) == MetadataVerdict(w, f)
    ensures Identity.NextMetadata(v, f) == Identity.NextMetadata(w, f)
  {
  }

  lemma SameBootVerdict(o: Options, w: World, v: World, f: MainFaults)
    requires HostAt(w) && HostAt(v) && RefOf(v) == RefOf(w) && v.images == w.images && v.now == w.now
    requires HostOf(v).managed == HostOf(w).managed && HostOf(v).state == HostOf(w).state
    requires v.install.value.status == w.install.value.status
    ensures BootVerdict(o, v, f) == BootVerdict(o, w, f)
  {
  }

  lemma PhasesDeliver(o: Options, w: World, list: seq<Condition>, f: MainFaults)
    requires w.install.Some?
    ensures Delivers(Phases(o, w, list, LookUpDeployment(w, f), f), Objection(o, w, f))
  {
    hide BeforeImage, ImageCreation, HostConfiguration, EarlyObjection, ImageVerdict, BootVerdict,
         Identity.NextMetadata;
    var d := LookUpDeployment(w, f);
    var c := BeforeImage(w, list, d, f);
    BeforeImageDelivers(w, list, f);
    if c.Proceed? {
      var name := w.install.value.spec.deployment.value;
      assert d.value == w.deployments[name] by { ReferencesExist(w, f); }
      ImageCreationDelivers(c.w, c.list, name, f);
      SameImageVerdict(w, c.w, Identity.NextMetadata(w, f), f);
      var e := ImageCreation(c.w, c.list, name, d.value, f);
      if e.Proceed? {
        HostConfigurationDelivers(o, e.w, c.list, f);
        SameBootVerdict(o, w, e.w, f);
      }
    }
  }

  lemma ReferencesExist(w: World, f: MainFaults)
    requires w.install.Some? && LookUpDeployment(w, f).Some?
    ensures Identity.DeploymentExists(w)
    ensures LookUpDeployment(w, f).value == w.deployments[w.install.value.spec.deployment.value]
  {
  }

  // ------------------------------------------------------------ the call

  /** The call gets as far as the phases. */
  predicate ReachesPhases(w: World) {
    && w.install.Some? && !w.install.value.deleting && w.install.value.finalizer
    && !HasStatus(Stored(w), Completed, True)
    && !(w.install.value.status.bootTime.Some? && ImageReady(w, w.install.value.uid))
    && !FreshFromBackup(w.install.value)
  }

  /** Annotations and conditions do not enter into the verdict. */
  lemma SameObjection(o: Options, w: World, v: World, f: MainFaults)
    requires w.install.Some? && v.install.Some? && v == w.(install := v.install)
    requires v.install.value.spec == w.install.value.spec && v.install.value.uid == w.install.value.uid
    requires v.install.value.status.host == w.install.value.status.host
    ensures Objection(o, v, f) == Objection(o, w, f)
  {
    hide ExpectedBuild, NewMetadata, ReferenceVerdict, HostVerdict, MetadataVerdict, BootVerdict;
    SameReferences(w, v, f);
    if ReferenceVerdict(w, f).None? {
      SameHost(o, w, v, f);
    }
  }

  lemma SameReferences(w: World, v: World, f: MainFaults)
    requires w.install.Some? && v.install.Some? && v == w.(install := v.install)
    requires v.install.value.spec == w.install.value.spec
    ensures ReferenceVerdict(v, f) == ReferenceVerdict(w, f)
    ensures ReferenceVerdict(w, f).None? ==> HostAt(w) && Identity.DeploymentExists(w)
  {
  }

  lemma SameHost(o: Options, w: World, v: World, f: MainFaults)
    requires HostAt(w) && Identity.DeploymentExists(w) && v.install.Some? && v == w.(install := v.install)
    requires v.install.value.spec == w.install.value.spec
    requires v.install.value.status.host == w.install.value.status.host
    ensures HostVerdict(v, f) == HostVerdict(w, f) && MetadataVerdict(v, f) == MetadataVerdict(w, f)
    ensures BootVerdict(o, v, f) == BootVerdict(o, w, f)
  {
    hide Accepts;
  }

  /** The repair of a report changes conditions only; unless it is lost, list and storage agree afterwards. */
  lemma RepairPrepares(w: World, f: MainFaults)
    requires w.install.Some?
    ensures var h := Repair(w, f);
      && h.w == PatchConditions(w, Stored(h.w))
      && (!f.repair ==> h.list == Stored(h.w))
      && (AllReported(h.list) <==> AllReported(Stored(w))) && (AllReported(Stored(h.w)) <==> AllReported(Stored(w)))
  {
    hide Set, Find;
    assert PatchConditions(w, Stored(w)) == w;
    if Repair(w, f) != Held(w, Stored(w)) {
      RecordKeepsKinds(w, f);
    }
  }

  lemma RecordKeepsKinds(w: World, f: MainFaults)
    requires w.install.Some? && HasStatus(Stored(w), RequirementsMet, False)
    ensures var h := RecordReport(w, Stored(w), MET, f.repair);
      (AllReported(h.list) <==> AllReported(Stored(w))) && (AllReported(Stored(h.w)) <==> AllReported(Stored(w)))
  {
    hide Merge;
    var updated := Set(Stored(w), RequirementsMetCondition(MET), w.now);
    assert AllReported(updated) <==> AllReported(Stored(w));
  }

  /** One of the patches before the phases is due and fails. */
  predicate PreparationFails(w: World, f: MainFaults)
    requires w.install.Some?
  {
    || (!w.install.value.restoreStatus && f.restoreStatus != Fine)
    || (!w.install.value.postCleanup && f.postCleanup != Fine)
    || (!AllReported(Stored(w)) && f.initialize != Fine)
  }

  /** The preparation fails exactly then; otherwise both annotations are stored and the list agrees with storage. */
  lemma PrepareDelivers(w: World, list: seq<Condition>, f: MainFaults)
    requires w.install.Some? && (AllReported(list) <==> AllReported(Stored(w)))
    ensures var p := Prepare(w, list, f);
      && (p.err <==> PreparationFails(w, f))
      && (!p.err ==>
            && p.w == w.(install := p.w.install)
            && p.w.install.value == WithAnnotations(w.install.value, true, true).(status := p.w.install.value.status)
            && p.w.install.value.status == w.install.value.status.(conditions := Stored(p.w))
            && (list == Stored(w) ==> p.list == Stored(p.w)))
  {
    hide Initialized, AnnotateBoth, AllReported;
    var a := AnnotateBoth(w, list, f);
    AnnotateBothMarks(w, list, f);
    InitializedIff(a.list, w.now);
  }

  lemma InitializedIff(list: seq<Condition>, now: int)
    ensures Initialized(list, now) == list <==> AllReported(list)
  {
    AddMissingUnchangedIff(list, INITIAL_KINDS, now);
    assert forall k :: k in INITIAL_KINDS <==> k == RequirementsMet || k == Completed || k == Failed || k == Stopped;
  }

  /** The two annotations, once both patches went through. */
  lemma AnnotateBothMarks(w: World, list: seq<Condition>, f: MainFaults)
    requires w.install.Some?
    ensures var a := AnnotateBoth(w, list, f);
      && (!a.err ==> a.w == w.(install := Some(WithAnnotations(w.install.value, true, true))))
      && (a.list == list || a.list == Stored(w))
      && (a.err <==> || (!w.install.value.restoreStatus && f.restoreStatus != Fine)
                     || (!w.install.value.postCleanup && f.postCleanup != Fine))
  {
  }

  /** The phases leave the conditions alone, and the list in memory follows the stored one. */
  lemma PhasesKeepList(o: Options, w: World, f: MainFaults)
    requires w.install.Some?
    ensures var p := Phases(o, w, Stored(w), LookUpDeployment(w, f), f); p.list == Stored(p.w) == Stored(w)
  {
    hide Phases, Find, InstallStep, LookUpDeployment;
    FoundDeployment(w, f);
    PhasesEffect(o, w, Stored(w), LookUpDeployment(w, f), f);
    InstallStepCore(w.install.value, Phases(o, w, Stored(w), LookUpDeployment(w, f), f).w.install.value, w.now);
  }

  lemma FoundDeployment(w: World, f: MainFaults)
    requires w.install.Some?
    ensures Found(w, LookUpDeployment(w, f))
  {
  }

  /** The stored condition says what the report says. */
  predicate Reported(list: seq<Condition>, r: Report) {
    && Find(list, RequirementsMet).Some?
    && Saying(Find(list, RequirementsMet).value) == (r.status, r.reason, r.message)
  }

  lemma ReportIsStored(w: World, r: Report)
    requires w.install.Some?
    ensures var v := RecordReport(w, Stored(w), r, false).w;
            v == PatchConditions(w, Stored(v)) && Reported(Stored(v), r)
  {
    hide Set, Find;
    assert PatchConditions(w, Stored(w)) == w;
    SetSays(Stored(w), RequirementsMetCondition(r), w.now);
  }

  lemma SetSays(list: seq<Condition>, c: Condition, now: int)
    ensures var r := Find(Set(list, c, now), c.kind); r.Some? && SameContent(r.value, c)
  {
    assert Find(Set(list, c, now), c.kind) == Some(Merge(Find(list, c.kind), c, now));
  }

  lemma RunPhasesDeliver(o: Options, w: World, list: seq<Condition>, f: MainFaults)
    requires w.install.Some?
    ensures var out := RunPhases(o, w, list, LookUpDeployment(w, f), f); var v := VerdictOf(o, w, f);
      && out.report == Some(v.report) && out.requeue == v.requeue && out.err == v.err
      && (list == Stored(w) && !f.report ==> out.w.install.Some? && Reported(Stored(out.w), v.report))
  {
    hide Phases, Objection, RecordReport, Reported, LookUpDeployment;
    var p := Phases(o, w, list, LookUpDeployment(w, f), f);
    PhasesDeliver(o, w, list, f);
    if list == Stored(w) && !f.report {
      PhasesKeepList(o, w, f);
      ReportIsStored(p.w, VerdictOf(o, w, f).report);
    }
  }

  lemma SameLookUp(w: World, v: World, f: MainFaults)
    requires w.install.Some? && v.install.Some? && v == w.(install := v.install)
    requires v.install.value.spec == w.install.value.spec
    ensures LookUpDeployment(v, f) == LookUpDeployment(w, f)
  {
  }

  lemma CallRunsPhases(o: Options, w: World, f: MainFaults)
    requires !f.getInstall && ReachesPhases(w)
    ensures var h := Repair(w, f); MainReconcile(o, w, f) == AfterRestoreGate(o, h.w, h.list, LookUpDeployment(w, f), f)
  {
    RestoreGateIff(w.install.value);
    hide Repair, AfterRestoreGate, BeingRestored, FreshFromBackup, ImageReady, Find;
  }

  /**
   Whatever fails: a call that gets as far as the phases ends with the verdict on the state before it, namely this
   report, this requeue, and an error exactly if the verdict says so. Only if a patch is due before the phases, and
   fails, does it end with an error and no report. Unless a report is lost, the verdict is also what RequirementsMet
   says afterwards.
   */
  lemma CallDeliversVerdict(o: Options, w: World, f: MainFaults)
    requires !f.getInstall && ReachesPhases(w)
    ensures var out := MainReconcile(o, w, f); var v := VerdictOf(o, w, f);
      if PreparationFails(w, f) then out.err && out.requeue == NoRequeue && out.report.None?
      else && out.report == Some(v.report) && out.requeue == v.requeue && out.err == v.err
           && (!f.report && !f.repair ==> out.w.install.Some? && Reported(Stored(out.w), v.report))
  {
    assert w.install.Some?;
    hide MainReconcile, ReachesPhases, RunPhases, VerdictOf, Reported, Repair, Prepare, LookUpDeployment, AllReported;
    var h := Repair(w, f);
    var p := Prepare(h.w, h.list, f);
    CallRunsPhases(o, w, f);
    RepairPrepares(w, f);
    PrepareDelivers(h.w, h.list, f);
    if !p.err {
      SameLookUp(w, p.w, f);
      SameVerdict(o, w, p.w, f);
      RunPhasesDeliver(o, p.w, p.list, f);
    }
  }

  lemma SameVerdict(o: Options, w: World, v: World, f: MainFaults)
    requires w.install.Some? && v.install.Some? && v == w.(install := v.install)
    requires v.install.value.spec == w.install.value.spec && v.install.value.uid == w.install.value.uid
    requires v.install.value.status.host == w.install.value.status.host
    ensures VerdictOf(o, v, f) == VerdictOf(o, w, f)
  {
    hide Objection;
    SameObjection(o, w, v, f);
  }

  // ------------------------------------------------------ a lost repair

  /** Metadata and start are stored already, so that no patch of the phases refreshes the list in memory. */
  predicate NothingToPatch(w: World) {
    && w.install.Some? && w.install.value.status.host.Some? && Identity.DeploymentExists(w)
    && MetadataComplete(w.install.value.spec.metadata, w.install.value.spec.deployment.value)
  }

  lemma BeforeImageKeepsMemory(w: World, list: seq<Condition>, f: MainFaults)
    requires NothingToPatch(w)
    ensures var p := BeforeImage(w, list, LookUpDeployment(w, f), f); p.list == list && p.w.install == w.install
  {
    hide MetadataComplete, Configuration, HostValidation, LookUpDeployment;
    CompleteDoesNotPanic(w.install.value.spec.metadata, w.install.value.spec.deployment.value);
  }

  lemma PhasesKeepMemory(o: Options, w: World, list: seq<Condition>, f: MainFaults)
    requires NothingToPatch(w)
    ensures var p := Phases(o, w, list, LookUpDeployment(w, f), f); p.list == list && p.w.install == w.install
  {
    hide BuildFor, BeforeImage, UpdateProvisioning, AttachImage, LookUpDeployment, MetadataComplete;
    BeforeImageKeepsMemory(w, list, f);
  }

  lemma CompleteDoesNotPanic(m: Option<Metadata>, name: string)
    requires MetadataComplete(m, name)
    ensures !MetadataPanics(m, name)
  {
  }

  /** Started, everything marked and reported, with complete metadata, and RequirementsMet says False. */
  predicate WronglyUnmet(w: World) {
    && ReachesPhases(w) && Identity.DeploymentExists(w)
    && w.install.value.status.bootTime.Some? && w.install.value.status.host.Some?
    && w.install.value.restoreStatus && w.install.value.postCleanup
    && AllReported(Stored(w)) && HasStatus(Stored(w), RequirementsMet, False)
    && MetadataComplete(w.install.value.spec.metadata, w.install.value.spec.deployment.value)
  }

  lemma LostRepairIsRemembered(w: World, f: MainFaults)
    requires WronglyUnmet(w) && f.repair
    ensures var h, met := Repair(w, f), RequirementsMetCondition(MET);
            h == Held(w, Set(Stored(w), met, w.now)) && Set(h.list, met, w.now) == h.list && AllReported(h.list)
  {
    var met := RequirementsMetCondition(MET);
    var list := Set(Stored(w), met, w.now);
    SetSays(Stored(w), met, w.now);
    SetUnchangedIff(list, met, w.now);
  }

  lemma NothingToPrepare(w: World, list: seq<Condition>, f: MainFaults)
    requires w.install.Some? && w.install.value.restoreStatus && w.install.value.postCleanup && AllReported(list)
    ensures Prepare(w, list, f) == Prepared(w, list, false)
  {
    hide Initialized, AllReported;
    InitializedIff(list, w.now);
  }

  /**
   A repair that is lost is not made up for in the same call: the list in memory already says True, so that the report
   at the end changes nothing. If all requirements are met, the call reports that, and the stored condition still says
   False.
   */
  lemma LostRepairIsNotRepeated(o: Options, w: World, f: MainFaults)
    requires WronglyUnmet(w) && !f.getInstall && f.repair && Objection(o, w, f).None?
    ensures var out := MainReconcile(o, w, f);
      && !out.err && out.requeue == NoRequeue && out.report == Some(Report(True, HostConfigurationSucceeded, Text(1)))
      && out.w.install == w.install
  {
    var h := Repair(w, f);
    assert NothingToPatch(w) && w.install.value.restoreStatus && w.install.value.postCleanup && ReachesPhases(w);
    hide MainReconcile, WronglyUnmet, ReachesPhases, NothingToPatch, Repair, Prepare, RunPhases, Objection, Set,
         LookUpDeployment, AllReported, RequirementsMetCondition;
    LostRepairIsRemembered(w, f);
    CallRunsPhases(o, w, f);
    NothingToPrepare(w, h.list, f);
    RunPhasesRemembers(o, w, h.list, f);
  }

  lemma RunPhasesRemembers(o: Options, w: World, list: seq<Condition>, f: MainFaults)
    requires NothingToPatch(w) && Objection(o, w, f).None? && Set(list, RequirementsMetCondition(MET), w.now) == list
    ensures var out := RunPhases(o, w, list, LookUpDeployment(w, f), f);
      && !out.err && out.requeue == NoRequeue && out.report == Some(Report(True, HostConfigurationSucceeded, Text(1)))
      && out.w.install == w.install
  {
    hide Phases, Objection, Set, LookUpDeployment, ImagesStep, InstallStep;
    PhasesDeliver(o, w, list, f);
    PhasesKeepMemory(o, w, list, f);
    FoundDeployment(w, f);
    PhasesEffect(o, w, list, LookUpDeployment(w, f), f);
  }

  // ------------------------------------------------------ the annotations

  lemma PreparedIsMarked(w: World, list: seq<Condition>, f: MainFaults)
    requires w.install.Some? && !Prepare(w, list, f).err
    ensures var i := Prepare(w, list, f).w.install.value; i.restoreStatus && i.postCleanup
  {
    hide AnnotateBoth, Initialized;
    AnnotateBothMarks(w, list, f);
  }

  lemma RunPhasesKeepsMarks(o: Options, w: World, list: seq<Condition>, deployment: Option<ClusterDeployment>,
                            f: MainFaults)
    requires w.install.Some?
    requires deployment.Some? ==> w.install.value.spec.deployment.Some?
    ensures var v := RunPhases(o, w, list, deployment, f).w;
      && v.install.Some?
      && v.install.value.restoreStatus == w.install.value.restoreStatus
      && v.install.value.postCleanup == w.install.value.postCleanup
  {
    hide Phases, Set, ImagesStep;
    PhasesEffect(o, w, list, deployment, f);
  }

  /**
   Whatever fails: a call that reports on the requirements has stored the annotation that makes a backup restore the
   status and the one that asks for the clean-up, before the first phase.
   */
  lemma ReportedIsMarked(o: Options, w: World, f: MainFaults)
    requires MainReconcile(o, w, f).report.Some?
    ensures var v := MainReconcile(o, w, f).w;
            v.install.Some? && v.install.value.restoreStatus && v.install.value.postCleanup
  {
    hide RunPhases, Prepare, PostCleanup, Finalize, Repair, BeingRestored, Find, ImageReady;
    FinalizeIsSilent(w, f);
    var h := Repair(w, f);
    var p := Prepare(h.w, h.list, f);
    RepairPrepares(w, f);
    assert !p.err && MainReconcile(o, w, f) == RunPhases(o, p.w, p.list, LookUpDeployment(w, f), f);
    PreparedIsMarked(h.w, h.list, f);
    RunPhasesKeepsMarks(o, p.w, p.list, LookUpDeployment(w, f), f);
  }

  // --------------------------------------- calls that do not reach the phases

  /**
   All other calls on an installation that is neither being deleted nor completed. A missing object is no error, and an
   unreadable one is. A new one gets the finalizer, and is called again unless the patch fails. A restored one waits
   for its status. One that is under way is left alone, except that a RequirementsMet which says False is set right.
   */
  lemma OtherCalls(o: Options, w: World, f: MainFaults)
    ensures var out, idle := MainReconcile(o, w, f), Outcome(w, NoRequeue, false, None);
      && (w.install.None? ==> out == idle)
      && (w.install.Some? && f.getInstall ==> out == idle.(err := true))
      && (w.install.Some? && !f.getInstall && !w.install.value.deleting ==>
            && (!w.install.value.finalizer ==>
                  out == Outcome(if f.addFinalizer == Lost then w
                                 else w.(install := Some(w.install.value.(finalizer := true))),
                                 RequeueNow, f.addFinalizer != Fine, None))
            && (w.install.value.finalizer && FreshFromBackup(w.install.value) ==> out == idle)
            && (Underway(w) ==> UnderwayOutcome(w, f, out)))
  {
    hide Active, Finalize, UnderwayOutcome, Find, ImageReady, BeingRestored, FreshFromBackup;
    if w.install.Some? && !w.install.value.deleting && w.install.value.finalizer {
      if FreshFromBackup(w.install.value) {
        RestoredCall(o, w, f);
      }
      if Underway(w) {
        UnderwayCall(o, w, f);
      }
    }
  }

  /** Nothing changes but a RequirementsMet that says False, and that only unless the report is lost. */
  predicate UnderwayOutcome(w: World, f: MainFaults, out: Outcome)
    requires w.install.Some?
  {
    && out == Outcome(out.w, NoRequeue, false, None)
    && if HasStatus(Stored(w), RequirementsMet, False) && !f.repair
       then && out.w.install.Some? && out.w == PatchConditions(w, Stored(out.w))
            && Reported(Stored(out.w), Report(True, HostConfigurationSucceeded, Text(1)))
       else out.w == w
  }

  lemma RestoredCall(o: Options, w: World, f: MainFaults)
    requires w.install.Some? && FreshFromBackup(w.install.value)
    ensures Active(o, w, f) == Outcome(w, NoRequeue, false, None)
  {
    hide AfterRestoreGate, PostCleanup;
  }

  lemma UnderwayCall(o: Options, w: World, f: MainFaults)
    requires Underway(w)
    ensures UnderwayOutcome(w, f, Active(o, w, f))
  {
    hide AfterRestoreGate, PostCleanup, RecordReport, Find, Reported, ImageReady;
    ReportIsStored(w, MET);
    LostReport(w);
  }

  lemma LostReport(w: World)
    requires w.install.Some?
    ensures RecordReport(w, Stored(w), MET, true).w == w
  {
  }

  // ---------------------------------------------------------------- the IDs

  /** An ID is kept, else taken from the stored seed, else new. */
  predicate Chosen(id: string, own: Option<string>, stored: Option<string>, generated: string) {
    if own.Some? && own.value != "" then id == own.value
    else if stored.Some? && stored.value != "" then id == stored.value
    else id == generated
  }

  /** Whatever fails: when a call changes the metadata, both IDs are chosen like this, and never again after that. */
  lemma IdsAreChosen(o: Options, w: World, f: MainFaults)
    requires w.install.Some? && !InstallationCompleted(w.install.value)
    requires var v := Active(o, w, f).w;
             v.install.Some? && v.install.value.spec.metadata != w.install.value.spec.metadata
    ensures var before, after := w.install.value.spec.metadata, Active(o, w, f).w.install.value.spec.metadata;
      && after.Some? && w.install.value.spec.deployment.Some?
      && var name := w.install.value.spec.deployment.value;
         var seed := IdsOf(w.secrets, name);
         && name in w.deployments
         && Chosen(after.value.clusterId, if before.Some? then Some(before.value.clusterId) else None,
                   if seed.Some? then Some(seed.value.clusterId) else None, f.newClusterId)
         && Chosen(after.value.infraId, if before.Some? then Some(before.value.infraId) else None,
                   if seed.Some? then Some(seed.value.infraId) else None,
                   InfraId.Generate(w.deployments[name].clusterName, f.newSuffix))
  {
    hide Active, BuildOutcome, MetadataComplete, ReadyToBoot, Find, Core, InfraId.Generate, LookUpDeployment;
    ActiveEffect(o, w, f);
    ActiveIdentity(o, w, f);
    if LookUpDeployment(w, f).Some? {
      ReferencesExist(w, f);
    }
  }

  /** The manifest in the seed secret, if there is one. */
  function IdsOf(s: Secrets, name: string): Option<Manifest> {
    var n := SecretName(SeedReconfiguration, name);
    if n in s && s[n].Some? && s[n].value.ManifestOf? then Some(s[n].value.manifest) else None
  }
}
