/**
 One reconcile of the main controller (controllers/imageclusterinstall_controller.go) as a function of the
 stored objects and of what fails during the call.

 The call works on a copy of the installation in memory. Every successful patch refreshes the copy from the
 stored object, and a failed patch ends the call, with one exception: when the patch that repairs the
 RequirementsMet condition fails, the call goes on with a condition list that differs from the stored one.
 The copy is therefore represented by its condition list `list`; everything else is read from `w.install`.
 */
module MainReconciler {
  import opened Base
  import opened Conditions
  import opened Credentials
  import opened ImageBuild
  import opened MachineNetworks
  import opened Hub
  import opened DataImages
  import InfraId

  /** A generated cluster ID is never empty. */
  type Uuid = s: string | s != "" witness "0"

  /**
   What each operation of the call does; `true` means that it fails. The errors of the two reports, `repair` and
   `report`, are only logged, so that a report is stored or lost.
   */
  datatype MainFaults = MainFaults(
    getInstall: bool,
    addFinalizer: WriteFault,
    dirs: bool, lock: bool, busy: bool, removal: Removal, imageRemoval: RemovalFaults, dropFinalizer: WriteFault,
    getDeployment: bool,
    recheckImage: bool,
    repair: bool,
    restoreStatus: WriteFault, postCleanup: WriteFault, initialize: WriteFault,
    getHost: bool, cleaning: WriteFault, external: WriteFault,
    readSeed: bool, metadata: WriteFault,
    build: BuildFaults, url: bool,
    getImage: bool, ownerRef: bool, createImage: WriteFault, rereadImage: bool,
    provisioning: WriteFault, boot: WriteFault,
    report: bool,
    newClusterId: Uuid, newSuffix: string, configRest: nat)

  /** The RequirementsMet condition a call is about to record. */
  datatype Report = Report(status: ConditionStatus, reason: Reason, message: Message)

  /** The end of a call. `report` is present once the phases have been entered. */
  datatype Outcome = Outcome(w: World, requeue: Requeue, err: bool, report: Option<Report>)

  /** The stored world and the condition list in memory. */
  datatype Held = Held(w: World, list: seq<Condition>)

  /** A phase either ends the call or hands over to the next one. */
  datatype Phase =
    | Halt(w: World, list: seq<Condition>, report: Report, requeue: Requeue, err: bool)
    | Proceed(w: World, list: seq<Condition>)

  const ATTACHED := Text(1)

  // ----------------------------------------------------------- condition

  function RequirementsMetCondition(r: Report): Condition {
    Condition(RequirementsMet, r.status, r.reason, r.message, 0, 0)
  }

  /** Updates the list in memory and, if that changed it, patches the stored one. */
  function RecordReport(w: World, list: seq<Condition>, r: Report, fails: bool): (h: Held)
    requires w.install.Some?
    ensures h.w.install.Some? && h.w == w.(install := h.w.install)
  {
    var updated := Set(list, RequirementsMetCondition(r), w.now);
    if updated == list || fails then Held(w, updated) else Held(PatchConditions(w, updated), updated)
  }

  // ------------------------------------------------- finalizer, clean-up

  function DropFinalizer(w: World): World
    requires w.install.Some?
  {
    var i := w.install.value;
    w.(install := if i.otherFinalizers then Some(i.(finalizer := false)) else None)
  }

  function Stop(w: World, requeue: Requeue, err: bool): Outcome {
    Outcome(w, requeue, err, None)
  }

  /** Removes the data image of the host that the installation names, if it names one. */
  function RemoveNamedImage(w: World, f: RemovalFaults): (r: RemovalEnd)
    requires w.install.Some?
    ensures r.w == w.(images := r.w.images, hosts := r.w.hosts)
  {
    if w.install.value.spec.host.None? then RemovalEnd(w, None, false)
    else RemoveDataImage(w, w.install.value.spec.host.value, f)
  }

  /** Once the files are gone: the data image, then the finalizer. */
  function Release(w: World, f: MainFaults): Outcome
    requires w.install.Some?
  {
    var r := RemoveNamedImage(w, f.imageRemoval);
    if r.err then Stop(r.w, NoRequeue, true)
    else if r.image.Some? then Stop(r.w, RequeueAfter(60), false)
    else if !w.install.value.finalizer then Stop(r.w, NoRequeue, false)
    else if f.dropFinalizer == Lost then Stop(r.w, NoRequeue, true)
    else Stop(DropFinalizer(r.w), NoRequeue, f.dropFinalizer != Fine)
  }

  /** The deletion path: files first, then the data image, then the finalizer. */
  function Finalize(w: World, f: MainFaults): Outcome
    requires w.install.Some?
  {
    var i := w.install.value;
    if f.dirs then Stop(w, NoRequeue, true)
    else
      var d := if i.uid in w.dirs then w.dirs[i.uid] else EMPTY_DIR;
      if f.lock then Stop(w.(dirs := w.dirs[i.uid := d]), NoRequeue, true)
      else if f.busy then Stop(w.(dirs := w.dirs[i.uid := d]), RequeueAfter(5), false)
      else if f.removal.Kept? then Stop(w.(dirs := w.dirs[i.uid := AfterRemoval(d, f.removal)]), NoRequeue, true)
      else Release(w.(dirs := w.dirs - {i.uid}), f)
  }

  /** Clean-up after completion, for installations that carry the post-cleanup annotation. */
  function PostCleanup(w: World, f: MainFaults): Outcome
    requires w.install.Some?
  {
    var i := w.install.value;
    if !i.postCleanup || i.spec.host.None? then Stop(w, NoRequeue, false)
    else
      var r := RemoveDataImage(w, i.spec.host.value, f.imageRemoval);
      if r.err || f.recheckImage then Stop(r.w, NoRequeue, true)
      else if i.spec.host.value in r.w.images then Stop(r.w, RequeueAfter(60), false)
      else Stop(r.w, NoRequeue, false)
  }

  // --------------------------------------------------------------- phases

  function Pending(w: World, list: seq<Condition>, reason: Reason, m: nat, requeue: Requeue): Phase {
    Halt(w, list, Report(False, reason, Text(m)), requeue, false)
  }

  function Broken(w: World, list: seq<Condition>, reason: Reason, m: Message): Phase {
    Halt(w, list, Report(False, reason, m), NoRequeue, true)
  }

  /** The installation's host exists. */
  predicate HostAt(w: World) {
    w.install.Some? && w.install.value.spec.host.Some? && w.install.value.spec.host.value in w.hosts
  }

  function RefOf(w: World): HostRef
    requires HostAt(w)
  {
    w.install.value.spec.host.value
  }

  function HostOf(w: World): Host
    requires HostAt(w)
  {
    w.hosts[RefOf(w)]
  }

  function PatchHost(w: World, h: Host): World
    requires HostAt(w)
  {
    w.(hosts := w.hosts[RefOf(w) := h])
  }

  /** Phase 1: references resolve, and automated cleaning is switched off. */
  function Configuration(w: World, list: seq<Condition>, deployment: Option<ClusterDeployment>,
                         f: MainFaults): (p: Phase)
    requires w.install.Some?
    ensures p.w == w.(hosts := p.w.hosts) && p.list == list
    ensures p.Proceed? ==> deployment.Some? && HostAt(p.w) && HostOf(p.w).cleaningDisabled
  {
    var i := w.install.value;
    if deployment.None? then
      Pending(w, list, ConfigurationPending,
              if i.spec.deployment.None? || i.spec.deployment.value == "" then 10 else 11, NoRequeue)
    else if i.spec.host.None? || i.spec.host.value.name == "" then Pending(w, list, ConfigurationPending, 12, NoRequeue)
    else if f.getHost || i.spec.host.value !in w.hosts then Pending(w, list, ConfigurationPending, 13, NoRequeue)
    else if HostOf(w).cleaningDisabled then Proceed(w, list)
    else if f.cleaning == Lost then Broken(w, list, ConfigurationFailed, Text(14))
    else
      var w' := PatchHost(w, HostOf(w).(cleaningDisabled := true));
      if f.cleaning == Fine then Proceed(w', list) else Broken(w', list, ConfigurationFailed, Text(14))
  }

  /** Phase 2: the host is inspected and fits the machine networks, or is taken as it is. */
  function HostValidation(w: World, list: seq<Condition>, f: MainFaults): (p: Phase)
    requires HostAt(w)
    ensures p.w == w.(hosts := p.w.hosts) && p.list == list && HostAt(p.w)
    ensures p.Proceed? ==> HostOf(p.w) == HostOf(w).(externallyProvisioned := true)
  {
    var h := HostOf(w);
    var spec := w.install.value.spec;
    if h.externallyProvisioned then Proceed(w, list)
    else if !h.inspectDisabled && h.state != Available then
      Pending(w, list, HostValidationPending, 20, RequeueAfter(30))
    else if !h.inspectDisabled && h.nics.None? then
      Pending(w, list, HostValidationPending, 21, RequeueAfter(30))
    else if !h.inspectDisabled && !Accepts(spec.machineNetwork, spec.machineNetworks, h.nics.value) then
      Broken(w, list, HostValidationFailed, Text(22))
    else if f.external == Lost then Broken(w, list, HostValidationFailed, UnknownMessage)
    else
      var w' := PatchHost(w, h.(externallyProvisioned := true));
      if f.external == Fine then Proceed(w', list) else Broken(w', list, HostValidationFailed, UnknownMessage)
  }

  function KubeconfigName(deployment: string): SecretRef {
    Own(SecretName(AdminKubeconfig, deployment))
  }

  function PasswordName(deployment: string): SecretRef {
    Own(SecretName(AdminPassword, deployment))
  }

  predicate IdsSet(m: Option<Metadata>) {
    m.Some? && m.value.clusterId != "" && m.value.infraId != ""
  }

  /** The metadata carries both IDs and names the two secrets of the deployment. */
  predicate MetadataComplete(m: Option<Metadata>, deployment: string) {
    && IdsSet(m)
    && m.value.kubeconfigSecret == KubeconfigName(deployment)
    && m.value.passwordSecret == Some(PasswordName(deployment))
  }

  /** The comparison reaches through a nil password reference and the call dies there. */
  predicate MetadataPanics(m: Option<Metadata>, deployment: string) {
    IdsSet(m) && m.value.kubeconfigSecret == KubeconfigName(deployment) && m.value.passwordSecret.None?
  }

  /** An ID comes from the metadata, else from the seed secret, else it is new. */
  function ChooseId(current: string, stored: string, generated: string): (r: string)
    ensures current != "" ==> r == current
    ensures current == "" && stored != "" ==> r == stored
  {
    if current != "" then current else if stored != "" then stored else generated
  }

  /** The metadata to store, or nothing when the seed secret cannot be read or decoded. */
  function NewMetadata(current: Option<Metadata>, s: Secrets, name: string, clusterName: string,
                       f: MainFaults): (r: Option<Metadata>)
    ensures r.Some? ==> r.value.clusterId != "" && r.value.infraId != ""
    ensures r.Some? ==> r.value.kubeconfigSecret == KubeconfigName(name)
    ensures r.Some? ==> r.value.passwordSecret == Some(PasswordName(name))
    ensures r.Some? && IdsSet(current) ==> r.value.clusterId == current.value.clusterId
    ensures r.Some? && IdsSet(current) ==> r.value.infraId == current.value.infraId
  {
    var seed := Content(s, SecretName(SeedReconfiguration, name));
    if f.readSeed || (seed.Some? && Decode(seed.value).None?) then None
    else
      var stored := if seed.Some? then Decode(seed.value) else None;
      Some(Metadata(
        ChooseId(if current.Some? then current.value.clusterId else "",
                 if stored.Some? then stored.value.clusterId else "",
                 f.newClusterId),
        ChooseId(if current.Some? then current.value.infraId else "",
                 if stored.Some? then stored.value.infraId else "",
                 InfraId.Generate(clusterName, f.newSuffix)),
        KubeconfigName(name),
        Some(PasswordName(name))))
  }

  /** Between phases 2 and 3: cluster metadata is stored before anything is generated from it. */
  function SetMetadata(w: World, list: seq<Condition>, name: string, deployment: ClusterDeployment,
                       f: MainFaults): (p: Phase)
    requires w.install.Some?
    ensures p.w.install.Some? && p.w == w.(install := p.w.install)
    ensures p.Proceed? ==> MetadataComplete(p.w.install.value.spec.metadata, name)
    ensures p.w.install.value == WithMetadata(w.install.value, p.w.install.value.spec.metadata)
    ensures p.list == list || p.list == Stored(p.w)
  {
    var current := w.install.value.spec.metadata;
    if MetadataPanics(current, name) then Broken(w, list, HostValidationFailed, UnknownMessage)
    else if MetadataComplete(current, name) then Proceed(w, list)
    else
      var m := NewMetadata(current, w.secrets, name, deployment.clusterName, f);
      if m.None? || f.metadata == Lost then Broken(w, list, HostValidationFailed, Text(30))
      else
        var w' := w.(install := Some(WithMetadata(w.install.value, m)));
        if f.metadata == Fine then Proceed(w', Stored(w')) else Broken(w', list, HostValidationFailed, Text(30))
  }

  function WithMetadata(i: Install, m: Option<Metadata>): Install {
    i.(spec := i.spec.(metadata := m))
  }

  function ConfigFor(metadata: Option<Metadata>, deployment: ClusterDeployment, rest: nat): Config {
    var m := if metadata.Some? then metadata.value else Metadata("", "", Hub.Foreign(""), None);
    Config(m.clusterId, m.infraId, deployment.baseDomain, deployment.clusterName, rest)
  }

  /** What the image phase does to the secrets and to the installation's working directory. */
  function BuildFor(w: World, name: string, deployment: ClusterDeployment, f: MainFaults): BuildEnd
    requires w.install.Some?
  {
    WriteInputData(w.secrets, DirOf(w, w.install.value.uid), name,
                   ConfigFor(w.install.value.spec.metadata, deployment, f.configRest), f.build)
  }

  function AfterBuild(w: World, b: BuildEnd): (r: World)
    requires w.install.Some?
    ensures r == w.(secrets := b.secrets, dirs := r.dirs)
    ensures r.dirs.Keys <= w.dirs.Keys + {w.install.value.uid}
  {
    WithDir(w.(secrets := b.secrets), w.install.value.uid, b.dir)
  }

  /** Phase 3: the image is on disk and its identity is stored. */
  function ImageCreation(w: World, list: seq<Condition>, name: string, deployment: ClusterDeployment,
                         f: MainFaults): (p: Phase)
    requires w.install.Some?
    ensures p.w == AfterBuild(w, BuildFor(w, name, deployment, f)) && p.list == list
    ensures p.Proceed? ==> BuildFor(w, name, deployment, f).result == BuildDone
  {
    var b := BuildFor(w, name, deployment, f);
    var w' := AfterBuild(w, b);
    match b.result
    case BuildFailed => Broken(w', list, ImageCreationFailed, Text(40))
    case BuildBusy => Pending(w', list, ImageCreationPending, 41, RequeueAfter(5))
    case BuildDone => if f.url then Broken(w', list, ImageCreationFailed, Text(42)) else Proceed(w', list)
  }

  function NewImage(w: World): DataImage
    requires w.install.Some?
  {
    DataImage(ImageUrl(w.install.value.namespace, w.install.value.uid), w.now, false, false)
  }

  /** The data image of the host exists and is not on its way out. */
  function EnsureDataImage(w: World, list: seq<Condition>, f: MainFaults): (p: Phase)
    requires HostAt(w)
    ensures p.w == w.(images := p.w.images) && p.list == list
    ensures p.Proceed? ==> RefOf(w) in p.w.images && !p.w.images[RefOf(w)].terminating
    ensures p.w.images == w.images || (RefOf(w) !in w.images && p.w.images == w.images[RefOf(w) := NewImage(w)])
  {
    var ref := RefOf(w);
    if f.getImage then Broken(w, list, HostConfigurationFailed, Text(50))
    else if ref in w.images then
      if !w.images[ref].terminating then Proceed(w, list)
      else Pending(w, list, HostConfigurationPending, 51, RequeueAfter(30))
    else if f.ownerRef || f.createImage == Lost then Broken(w, list, HostConfigurationFailed, Text(50))
    else
      var w' := w.(images := w.images[ref := NewImage(w)]);
      if f.createImage == Fine && !f.rereadImage then Proceed(w', list)
      else Broken(w', list, HostConfigurationFailed, Text(50))
  }

  predicate CooledDown(o: Options, w: World, ref: HostRef)
    requires ref in w.images
  {
    w.images[ref].created + o.coolDown <= w.now
  }

  /** The host is told to boot into the image and is marked as managed. */
  function UpdateProvisioning(w: World, list: seq<Condition>, f: MainFaults): (p: Phase)
    requires HostAt(w) && RefOf(w) in w.images
    ensures p.w == w.(hosts := p.w.hosts) && p.list == list && HostAt(p.w)
    ensures HostOf(p.w) == HostOf(w).(online := HostOf(p.w).online, reboot := HostOf(p.w).reboot,
                                      managed := HostOf(p.w).managed)
    ensures p.Proceed? ==> HostOf(p.w).managed
  {
    var h := HostOf(w);
    if h.managed then Proceed(w, list)
    else if h.state != Available && h.state != ExternallyProvisioned then
      Pending(w, list, HostConfigurationPending, 54, NoRequeue)
    else if f.provisioning == Lost then Broken(w, list, HostConfigurationFailed, Text(53))
    else
      var w' := PatchHost(w, h.(online := true, managed := true, reboot := h.reboot || !w.images[RefOf(w)].attached));
      if f.provisioning == Fine then Proceed(w', list) else Broken(w', list, HostConfigurationFailed, Text(53))
  }

  /** The installation as recorded at its start. */
  function Booted(i: Install, now: int): Install {
    i.(status := i.status.(host := i.spec.host,
                           bootTime := if i.status.bootTime.None? then Some(now) else i.status.bootTime))
  }

  /** The installation is recorded as started. */
  function RecordBoot(w: World, list: seq<Condition>, f: MainFaults): (p: Phase)
    requires w.install.Some?
    ensures p.w.install.Some? && p.w == w.(install := p.w.install)
    ensures p.list == list || p.list == Stored(w)
  {
    if w.install.value.status.host.Some? then Proceed(w, list)
    else if f.boot == Lost then Broken(w, list, HostConfigurationFailed, Text(55))
    else
      var w' := w.(install := Some(Booted(w.install.value, w.now)));
      if f.boot == Fine then Proceed(w', Stored(w)) else Broken(w', list, HostConfigurationFailed, Text(55))
  }

  /** The host is booted into the image, and the start is recorded. */
  function BootHost(w: World, list: seq<Condition>, f: MainFaults): (p: Phase)
    requires HostAt(w) && RefOf(w) in w.images
    ensures p.w.install.Some?
  {
    var b := UpdateProvisioning(w, list, f);
    if b.Halt? then b else RecordBoot(b.w, list, f)
  }

  /** The data image exists and has cooled down. */
  function AttachImage(o: Options, w: World, list: seq<Condition>, f: MainFaults): (p: Phase)
    requires HostAt(w)
    ensures p.w == w.(images := p.w.images) && p.list == list
    ensures p.Proceed? ==> RefOf(w) in p.w.images && !p.w.images[RefOf(w)].terminating && CooledDown(o, p.w, RefOf(w))
    ensures p.w.images == w.images || (RefOf(w) !in w.images && p.w.images == w.images[RefOf(w) := NewImage(w)])
  {
    var a := EnsureDataImage(w, list, f);
    if a.Halt? || CooledDown(o, a.w, RefOf(w)) then a
    else Pending(a.w, list, HostConfigurationPending, 52, RequeueAfter(o.coolDown))
  }

  /** Phase 4: the image is attached, the host is booted from it, and the start is recorded. */
  function HostConfiguration(o: Options, w: World, list: seq<Condition>, f: MainFaults): (p: Phase)
    requires HostAt(w)
    ensures p.w.install.Some?
  {
    var a := AttachImage(o, w, list, f);
    if a.Halt? then a else BootHost(a.w, list, f)
  }

  /** Phases 1 and 2, and the metadata. */
  function BeforeImage(w: World, list: seq<Condition>, deployment: Option<ClusterDeployment>, f: MainFaults): (p: Phase)
    requires w.install.Some?
    requires deployment.Some? ==> w.install.value.spec.deployment.Some?
    ensures p.Proceed? ==> deployment.Some? && HostAt(p.w)
    ensures p.w.install.Some?
  {
    var a := Configuration(w, list, deployment, f);
    if a.Halt? then a
    else
      var b := HostValidation(a.w, list, f);
      if b.Halt? then b else SetMetadata(b.w, list, w.install.value.spec.deployment.value, deployment.value, f)
  }

  /** Phases 3 and 4. */
  function ImageAndHost(o: Options, w: World, list: seq<Condition>, name: string, deployment: ClusterDeployment,
                        f: MainFaults): (p: Phase)
    requires HostAt(w)
    ensures p.w.install.Some?
  {
    var d := ImageCreation(w, list, name, deployment, f);
    if d.Halt? then d else HostConfiguration(o, d.w, list, f)
  }

  /** All phases in order. */
  function Phases(o: Options, w: World, list: seq<Condition>, deployment: Option<ClusterDeployment>,
                  f: MainFaults): (p: Phase)
    requires w.install.Some?
    requires deployment.Some? ==> w.install.value.spec.deployment.Some?
    ensures p.w.install.Some?
  {
    var c := BeforeImage(w, list, deployment, f);
    if c.Halt? then c
    else ImageAndHost(o, c.w, c.list, w.install.value.spec.deployment.value, deployment.value, f)
  }

  const MET := Report(True, HostConfigurationSucceeded, ATTACHED)

  /** The phases followed by the deferred update of the RequirementsMet condition. */
  function RunPhases(o: Options, w: World, list: seq<Condition>, deployment: Option<ClusterDeployment>,
                     f: MainFaults): Outcome
    requires w.install.Some?
    requires deployment.Some? ==> w.install.value.spec.deployment.Some?
  {
    var p := Phases(o, w, list, deployment, f);
    var report := if p.Halt? then p.report else MET;
    Outcome(RecordReport(p.w, p.list, report, f.report).w,
            if p.Halt? then p.requeue else NoRequeue, p.Halt? && p.err, Some(report))
  }

  // ------------------------------------------------------------ reconcile

  /** The deployment the installation refers to, when it is named and can be read. */
  function LookUpDeployment(w: World, f: MainFaults): (r: Option<ClusterDeployment>)
    requires w.install.Some?
    ensures r.Some? ==> w.install.value.spec.deployment.Some?
  {
    var name := w.install.value.spec.deployment;
    if name.Some? && name.value != "" && !f.getDeployment && name.value in w.deployments
    then Some(w.deployments[name.value]) else None
  }

  /** Once the start is recorded, a RequirementsMet condition that still says False is set right. */
  function Repair(w: World, f: MainFaults): (h: Held)
    requires w.install.Some?
    ensures h.w.install.Some? && h.w == w.(install := h.w.install)
  {
    if w.install.value.status.bootTime.Some? && HasStatus(Stored(w), RequirementsMet, False)
    then RecordReport(w, Stored(w), MET, f.repair) else Held(w, Stored(w))
  }

  datatype Prepared = Prepared(w: World, list: seq<Condition>, err: bool)

  function WithAnnotations(i: Install, restoreStatus: bool, postCleanup: bool): Install {
    i.(restoreStatus := restoreStatus, postCleanup := postCleanup)
  }

  /** Patches the annotations of the stored object, if that changes it. */
  function Annotate(w: World, list: seq<Condition>, restoreStatus: bool, postCleanup: bool,
                    fault: WriteFault): (r: Prepared)
    requires w.install.Some?
    ensures r.w.install.Some? && r.w == w.(install := r.w.install)
    ensures !r.err ==> r.w.install.value == WithAnnotations(w.install.value, restoreStatus, postCleanup)
    ensures r.w == w || r.w.install.value == WithAnnotations(w.install.value, restoreStatus, postCleanup)
    ensures r.list == list || r.list == Stored(w)
  {
    var i := WithAnnotations(w.install.value, restoreStatus, postCleanup);
    if i == w.install.value then Prepared(w, list, false)
    else if fault == Lost then Prepared(w, list, true)
    else if fault == DoneButFailed then Prepared(w.(install := Some(i)), list, true)
    else Prepared(w.(install := Some(i)), Stored(w), false)
  }

  function InitializeStatus(w: World, list: seq<Condition>, fault: WriteFault): (r: Prepared)
    requires w.install.Some?
    ensures r.w.install.Some? && r.w == w.(install := r.w.install)
  {
    var updated := Initialized(list, w.now);
    if updated == list then Prepared(w, list, false)
    else if fault == Lost then Prepared(w, updated, true)
    else Prepared(PatchConditions(w, updated), updated, fault != Fine)
  }

  /** The restore-status annotation, then the post-cleanup annotation. */
  function AnnotateBoth(w: World, list: seq<Condition>, f: MainFaults): (r: Prepared)
    requires w.install.Some?
    ensures r.w.install.Some? && r.w == w.(install := r.w.install)
    ensures r.w.install.value.spec == w.install.value.spec
    ensures r.list == list || r.list == Stored(w)
    ensures !r.err ==> r.w.install.value.postCleanup
  {
    var a := Annotate(w, list, true, w.install.value.postCleanup, f.restoreStatus);
    if a.err then a else Annotate(a.w, a.list, true, true, f.postCleanup)
  }

  /** The two annotations and the initial conditions; a failed patch ends the call. */
  function Prepare(w: World, list: seq<Condition>, f: MainFaults): (r: Prepared)
    requires w.install.Some?
    ensures r.w.install.Some? && r.w.install.value.spec == w.install.value.spec
  {
    var a := AnnotateBoth(w, list, f);
    if a.err then a else InitializeStatus(a.w, a.list, f.initialize)
  }

  /** An installation that is neither being deleted nor new. */
  function Active(o: Options, w: World, f: MainFaults): Outcome
    requires w.install.Some?
  {
    var i := w.install.value;
    if InstallationCompleted(i) then PostCleanup(w, f)
    else
      var h := Repair(w, f);
      if i.status.bootTime.Some? && ImageReady(w, i.uid) then Stop(h.w, NoRequeue, false)
      else if BeingRestored(i) then Stop(h.w, NoRequeue, false)
      else AfterRestoreGate(o, h.w, h.list, LookUpDeployment(w, f), f)
  }

  function AfterRestoreGate(o: Options, w: World, list: seq<Condition>, deployment: Option<ClusterDeployment>,
                            f: MainFaults): Outcome
    requires w.install.Some?
    requires deployment.Some? ==> w.install.value.spec.deployment.Some?
  {
    var p := Prepare(w, list, f);
    if p.err then Stop(p.w, NoRequeue, true)
    else RunPhases(o, p.w, p.list, deployment, f)
  }

  function MainReconcile(o: Options, w: World, f: MainFaults): Outcome {
    if w.install.None? then Stop(w, NoRequeue, false)
    else if f.getInstall then Stop(w, NoRequeue, true)
    else
      var i := w.install.value;
      if i.deleting then Finalize(w, f)
      else if !i.finalizer then
        var v := if f.addFinalizer == Lost then w else w.(install := Some(i.(finalizer := true)));
        Stop(v, RequeueNow, f.addFinalizer != Fine)
      else Active(o, w, f)
  }
}
