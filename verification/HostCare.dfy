/** What the main controller does to hosts: to which one, and when it lets it boot. */
module HostCare {
  import opened Base
  import opened Conditions
  import opened Credentials
  import opened ImageBuild
  import opened MachineNetworks
  import opened Hub
  import opened DataImages
  import opened MainReconciler
  import opened MainEffects
  import opened Safety

  /** The fields that are switched on before the image is built. */
  function WithPreparation(h: Host, cleaning: bool, external: bool): Host {
    h.(cleaningDisabled := cleaning, externallyProvisioned := external)
  }

  /** A host told to boot into an image. */
  function Launched(h: Host, image: DataImage): Host {
    h.(online := true, managed := true, reboot := h.reboot || !image.attached)
  }

  /** The image may be booted: attached long enough, with its identity already stored. */
  predicate MayBoot(o: Options, w: World) {
    && HostAt(w)
    && RefOf(w) in w.images
    && !w.images[RefOf(w)].terminating
    && w.images[RefOf(w)].created + o.coolDown <= w.now
    && w.install.value.spec.deployment.Some?
    && MetadataComplete(w.install.value.spec.metadata, w.install.value.spec.deployment.value)
    && ImageStored(w, w.install.value.uid, w.install.value.spec.deployment.value)
  }

  /** The hosts before and after: at most the named host is prepared, and it is launched only if it may boot. */
  predicate HostsStep(o: Options, w: World, v: World) {
    || v.hosts == w.hosts
    || (&& HostAt(w) && HostAt(v) && RefOf(v) == RefOf(w)
        && var h := WithPreparation(HostOf(w), HostOf(v).cleaningDisabled, HostOf(v).externallyProvisioned);
           && (HostOf(w).cleaningDisabled ==> h.cleaningDisabled)
           && (HostOf(w).externallyProvisioned ==> h.externallyProvisioned)
           && (|| v.hosts == w.hosts[RefOf(w) := h]
               || (&& !h.managed && HostPrepared(h) && MayBoot(o, v)
                   && (h.state == Available || h.state == ExternallyProvisioned)
                   && v.hosts == w.hosts[RefOf(w) := Launched(h, v.images[RefOf(w)])])))
  }

  // --------------------------------------------------------- the phases

  lemma ConfigurationHosts(w: World, list: seq<Condition>, deployment: Option<ClusterDeployment>, f: MainFaults)
    requires w.install.Some?
    ensures var p := Configuration(w, list, deployment, f);
      && p.w.install == w.install
      && (|| (p.Halt? && p.w.hosts == w.hosts)
          || (HostAt(w) && p.w.hosts == w.hosts[RefOf(w) := HostOf(w).(cleaningDisabled := true)]))
  {
    if HostAt(w) && HostOf(w).cleaningDisabled {
      assert w.hosts[RefOf(w) := HostOf(w)] == w.hosts;
    }
  }

  lemma HostValidationHosts(w: World, list: seq<Condition>, f: MainFaults)
    requires HostAt(w)
    ensures var p := HostValidation(w, list, f);
      && RefOf(p.w) == RefOf(w) && p.w.hosts == w.hosts[RefOf(w) := HostOf(p.w)]
      && HostOf(p.w) == HostOf(w).(externallyProvisioned := HostOf(p.w).externallyProvisioned)
      && (HostOf(w).externallyProvisioned || p.Proceed? ==> HostOf(p.w).externallyProvisioned)
  {
    var p := HostValidation(w, list, f);
    var ready := HostOf(w).(externallyProvisioned := true);
    assert p.w == w || p.w == PatchHost(w, ready) by { hide Accepts; }
    hide HostValidation;
    SameHostAgain(w);
  }

  lemma SameHostAgain(w: World)
    requires HostAt(w)
    ensures w.hosts[RefOf(w) := HostOf(w)] == w.hosts
  {
  }

  lemma PreparationIsStep(o: Options, w: World, v: World, cleaning: bool, external: bool)
    requires HostAt(w) && HostAt(v) && RefOf(v) == RefOf(w)
    requires v.hosts == w.hosts[RefOf(w) := WithPreparation(HostOf(w), cleaning, external)]
    requires (HostOf(w).cleaningDisabled ==> cleaning) && (HostOf(w).externallyProvisioned ==> external)
    ensures HostsStep(o, w, v)
  {
    hide MayBoot;
  }

  lemma MetadataHosts(w: World, list: seq<Condition>, name: string, d: ClusterDeployment, f: MainFaults)
    requires HostAt(w)
    ensures var p := SetMetadata(w, list, name, d, f); p.w.hosts == w.hosts && HostAt(p.w) && RefOf(p.w) == RefOf(w)
  {
    hide SetMetadata;
  }

  lemma LastUpdateCounts(m: map<HostRef, Host>, k: HostRef, a: Host, b: Host)
    ensures m[k := a][k := b] == m[k := b]
  {
  }

  /** Phases 1 and 2 together. */
  lemma ValidationHosts(w: World, list: seq<Condition>, deployment: Option<ClusterDeployment>, f: MainFaults)
    requires w.install.Some? && Configuration(w, list, deployment, f).Proceed?
    ensures var a := Configuration(w, list, deployment, f);
            var b := HostValidation(a.w, list, f);
      && HostAt(w) && HostAt(b.w) && RefOf(b.w) == RefOf(w)
      && b.w.hosts == w.hosts[RefOf(w) := WithPreparation(HostOf(w), true, HostOf(b.w).externallyProvisioned)]
      && (HostOf(w).externallyProvisioned || b.Proceed? ==> HostOf(b.w).externallyProvisioned)
  {
    hide Configuration, HostValidation;
    var a := Configuration(w, list, deployment, f);
    ConfigurationHosts(w, list, deployment, f);
    var b := HostValidation(a.w, list, f);
    HostValidationHosts(a.w, list, f);
    LastUpdateCounts(w.hosts, RefOf(w), HostOf(a.w), HostOf(b.w));
    assert HostOf(b.w) == WithPreparation(HostOf(w), true, HostOf(b.w).externallyProvisioned);
  }

  lemma BeforeImageHosts(o: Options, w: World, list: seq<Condition>, deployment: Option<ClusterDeployment>,
                         f: MainFaults)
    requires w.install.Some?
    requires deployment.Some? ==> w.install.value.spec.deployment.Some?
    ensures var p := BeforeImage(w, list, deployment, f);
      && HostsStep(o, w, p.w)
      && (p.Proceed? ==>
            && HostAt(w) && HostAt(p.w) && RefOf(p.w) == RefOf(w)
            && p.w.hosts == w.hosts[RefOf(w) := WithPreparation(HostOf(w), true, true)])
  {
    hide Configuration, HostValidation, SetMetadata, HostsStep;
    var p := BeforeImage(w, list, deployment, f);
    var a := Configuration(w, list, deployment, f);
    if a.Proceed? {
      hide WithPreparation;
      var b := HostValidation(a.w, list, f);
      ValidationHosts(w, list, deployment, f);
      MetadataHosts(b.w, list, w.install.value.spec.deployment.value, deployment.value, f);
      PreparationIsStep(o, w, p.w, true, HostOf(b.w).externallyProvisioned);
    } else {
      ConfigurationHosts(w, list, deployment, f);
      if a.w.hosts == w.hosts {
        SameHostsIsStep(o, w, p.w);
      } else {
        PreparationIsStep(o, w, p.w, true, HostOf(w).externallyProvisioned);
      }
    }
  }

  lemma SameHostsIsStep(o: Options, w: World, v: World)
    requires v.hosts == w.hosts
    ensures HostsStep(o, w, v)
  {
  }

  lemma HostConfigurationHosts(o: Options, w: World, list: seq<Condition>, f: MainFaults)
    requires HostAt(w)
    ensures var p := HostConfiguration(o, w, list, f);
      || p.w.hosts == w.hosts
      || (&& !HostOf(w).managed
          && (HostOf(w).state == Available || HostOf(w).state == ExternallyProvisioned)
          && RefOf(w) in p.w.images && !p.w.images[RefOf(w)].terminating && CooledDown(o, p.w, RefOf(w))
          && p.w.hosts == w.hosts[RefOf(w) := Launched(HostOf(w), p.w.images[RefOf(w)])])
  {
    hide AttachImage, RecordBoot;
  }

  /** The launch of a host, as the last two phases do it. */
  predicate Launch(o: Options, w: World, v: World)
    requires HostAt(w)
  {
    && !HostOf(w).managed
    && (HostOf(w).state == Available || HostOf(w).state == ExternallyProvisioned)
    && MayBoot(o, v) && RefOf(v) == RefOf(w)
    && v.hosts == w.hosts[RefOf(w) := Launched(HostOf(w), v.images[RefOf(w)])]
  }

  lemma ImageAndHostHosts(o: Options, w: World, list: seq<Condition>, name: string, d: ClusterDeployment, f: MainFaults)
    requires HostAt(w) && w.install.value.spec.deployment == Some(name)
    requires MetadataComplete(w.install.value.spec.metadata, name)
    ensures var p := ImageAndHost(o, w, list, name, d, f); p.w.hosts == w.hosts || Launch(o, w, p.w)
  {
    hide HostConfiguration, MetadataComplete, Mirrors, WriteInputData, Launched;
    var e := ImageCreation(w, list, name, d, f);
    if e.Proceed? {
      var c := ConfigFor(w.install.value.spec.metadata, d, f.configRest);
      BuildDoneMirrors(w.secrets, DirOf(w, w.install.value.uid), name, c, f.build);
      assert ImageStored(e.w, w.install.value.uid, name);
      HostConfigurationEffect(o, e.w, list, f);
      HostConfigurationHosts(o, e.w, list, f);
    }
  }

  lemma LaunchIsStep(o: Options, w: World, u: World, v: World)
    requires HostAt(w) && HostAt(u) && RefOf(u) == RefOf(w)
    requires u.hosts == w.hosts[RefOf(w) := WithPreparation(HostOf(w), true, true)]
    requires Launch(o, u, v)
    ensures HostsStep(o, w, v)
  {
    hide MetadataComplete, ImageStored, CooledDown;
    LastUpdateCounts(w.hosts, RefOf(w), HostOf(u), Launched(HostOf(u), v.images[RefOf(w)]));
  }

  lemma PhasesHosts(o: Options, w: World, list: seq<Condition>, deployment: Option<ClusterDeployment>, f: MainFaults)
    requires w.install.Some? && Found(w, deployment)
    ensures HostsStep(o, w, Phases(o, w, list, deployment, f).w)
  {
    hide BeforeImage, ImageAndHost, HostsStep, WithPreparation, Launch, MetadataComplete, BuildFor, AfterBuild;
    var c := BeforeImage(w, list, deployment, f);
    BeforeImageHosts(o, w, list, deployment, f);
    BeforeImageEffect(w, list, deployment, f);
    if c.Proceed? {
      var name := w.install.value.spec.deployment.value;
      var p := ImageAndHost(o, c.w, c.list, name, deployment.value, f);
      ImageAndHostEffect(o, c.w, c.list, name, deployment.value, f);
      ImageAndHostHosts(o, c.w, c.list, name, deployment.value, f);
      if p.w.hosts == c.w.hosts {
        PreparationIsStep(o, w, p.w, true, true);
      } else {
        LaunchIsStep(o, w, c.w, p.w);
      }
    }
  }

  // ------------------------------------------------------- one reconcile

  lemma ReportKeepsHosts(o: Options, w: World, u: World, v: World)
    requires u.install.Some? && v.install.Some? && v == PatchConditions(u, Stored(v)) && HostsStep(o, w, u)
    ensures HostsStep(o, w, v)
  {
    hide MetadataComplete, Mirrors;
  }

  lemma TouchedThenHosts(o: Options, u: World, w: World, v: World)
    requires Touched(u, w) && HostsStep(o, w, v)
    ensures HostsStep(o, u, v)
  {
    hide MayBoot, Core;
  }

  lemma TouchedHosts(w: World, v: World)
    requires Touched(w, v)
    ensures v.hosts == w.hosts
  {
  }

  lemma RunPhasesHosts(o: Options, w: World, list: seq<Condition>, deployment: Option<ClusterDeployment>, f: MainFaults)
    requires w.install.Some? && Found(w, deployment) && CondSync(list, Stored(w))
    ensures HostsStep(o, w, RunPhases(o, w, list, deployment, f).w)
  {
    hide Phases, CondSync, RecordReport, Find, InstallStep, HostsStep, SameProgress, StillReported;
    var p := Phases(o, w, list, deployment, f);
    var report := if p.Halt? then p.report else MET;
    PhasesHosts(o, w, list, deployment, f);
    PhasesEffect(o, w, list, deployment, f);
    InstallStepCore(w.install.value, p.w.install.value, w.now);
    CondSyncRefl(Stored(w));
    RecordReportEffect(p.w, p.list, report, f.report);
    ReportKeepsHosts(o, w, p.w, RecordReport(p.w, p.list, report, f.report).w);
  }

  lemma ActiveHosts(o: Options, w: World, f: MainFaults)
    requires w.install.Some? && !InstallationCompleted(w.install.value)
    ensures HostsStep(o, w, Active(o, w, f).w)
  {
    hide Repair, Prepare, RunPhases, CondSync, Find, SaysMet, Touched, SameProgress, HostsStep;
    var h := Repair(w, f);
    RepairEffect(w, f);
    PatchTouches(w, Stored(h.w));
    var p := Prepare(h.w, h.list, f);
    PrepareEffect(h.w, h.list, f);
    TouchedTransitive(w, h.w, p.w);
    TouchedBoot(w, h.w);
    TouchedBoot(w, p.w);
    TouchedHosts(w, p.w);
    SameHostsIsStep(o, w, h.w);
    SameHostsIsStep(o, w, p.w);
    if !p.err {
      RunPhasesHosts(o, p.w, p.list, LookUpDeployment(w, f), f);
      TouchedThenHosts(o, w, p.w, RunPhases(o, p.w, p.list, LookUpDeployment(w, f), f).w);
    }
  }

  /** While an image is removed, its host is at most asked to reboot. */
  predicate OnlyReboots(before: map<HostRef, Host>, after: map<HostRef, Host>, named: Option<HostRef>) {
    && after.Keys == before.Keys
    && forall h :: h in before ==>
         after[h] == before[h] || (named == Some(h) && after[h] == before[h].(reboot := true))
  }

  lemma RemovalOnlyReboots(w: World, ref: HostRef, f: RemovalFaults)
    ensures OnlyReboots(w.hosts, RemoveDataImage(w, ref, f).w.hosts, Some(ref))
  {
  }

  lemma FinalizeHosts(w: World, f: MainFaults)
    requires w.install.Some?
    ensures var i := w.install.value; var hosts := Finalize(w, f).w.hosts;
      || hosts == w.hosts
      || (&& i.spec.host.Some?
          && var u := w.(dirs := w.dirs - {i.uid});
             hosts == RemoveDataImage(u, i.spec.host.value, f.imageRemoval).w.hosts)
  {
    hide RemoveDataImage, AfterRemoval, Release;
    ReleaseHosts(w.(dirs := w.dirs - {w.install.value.uid}), f);
  }

  lemma ReleaseHosts(w: World, f: MainFaults)
    requires w.install.Some?
    ensures var i := w.install.value; var hosts := Release(w, f).w.hosts;
      || hosts == w.hosts
      || (i.spec.host.Some? && hosts == RemoveDataImage(w, i.spec.host.value, f.imageRemoval).w.hosts)
  {
    var r := RemoveNamedImage(w, f.imageRemoval);
    assert Release(w, f).w.hosts == r.w.hosts by { hide RemoveNamedImage; }
  }

  lemma PostCleanupHosts(w: World, f: MainFaults)
    requires w.install.Some?
    ensures var i := w.install.value; var hosts := PostCleanup(w, f).w.hosts;
      || hosts == w.hosts
      || (i.spec.host.Some? && hosts == RemoveDataImage(w, i.spec.host.value, f.imageRemoval).w.hosts)
  {
    hide RemoveDataImage;
  }

  lemma SameOnlyReboots(hosts: map<HostRef, Host>, named: Option<HostRef>)
    ensures OnlyReboots(hosts, hosts, named)
  {
  }

  lemma WindingDownOnlyReboots(w: World, f: MainFaults)
    requires w.install.Some?
    ensures OnlyReboots(w.hosts, Finalize(w, f).w.hosts, w.install.value.spec.host)
    ensures OnlyReboots(w.hosts, PostCleanup(w, f).w.hosts, w.install.value.spec.host)
  {
    hide RemoveDataImage, Finalize, PostCleanup, OnlyReboots;
    var i := w.install.value;
    FinalizeHosts(w, f);
    PostCleanupHosts(w, f);
    SameOnlyReboots(w.hosts, i.spec.host);
    if i.spec.host.Some? {
      RemovalOnlyReboots(w.(dirs := w.dirs - {i.uid}), i.spec.host.value, f.imageRemoval);
      RemovalOnlyReboots(w, i.spec.host.value, f.imageRemoval);
    }
  }

  /** The host that the installation names, if it names one. */
  predicate Named(w: World, h: HostRef) {
    w.install.Some? && w.install.value.spec.host == Some(h)
  }

  /** What may happen to one host from one state to the next. */
  predicate HandledWithCare(o: Options, w: World, v: World, h: HostRef)
    requires h in w.hosts
  {
    && h in v.hosts
    && var a, b := w.hosts[h], v.hosts[h];
       && (!Named(w, h) ==> b == a)
       && b.state == a.state && b.nics == a.nics && b.poweredOn == a.poweredOn && b.inspectDisabled == a.inspectDisabled
       && (a.cleaningDisabled ==> b.cleaningDisabled) && (a.externallyProvisioned ==> b.externallyProvisioned)
       && (a.managed ==> b.managed)
       && (b.managed && !a.managed ==>
             Named(v, h) && MayBoot(o, v) && HostPrepared(b) && b.online && (b.reboot || v.images[h].attached))
  }

  lemma StepIsCareful(o: Options, w: World, v: World, h: HostRef)
    requires HostsStep(o, w, v) && h in w.hosts
    ensures HandledWithCare(o, w, v, h)
  {
    hide CooledDown, MetadataComplete, ImageStored;
  }

  lemma RebootIsCareful(o: Options, w: World, v: World, h: HostRef)
    requires h in w.hosts && w.install.Some? && OnlyReboots(w.hosts, v.hosts, w.install.value.spec.host)
    ensures HandledWithCare(o, w, v, h)
  {
    hide MayBoot;
  }

  /**
   A reconcile changes no host but the one the installation names, and of that one neither what inspection found
   nor its state. It marks the host as managed only after it has disabled cleaning, declared the host externally
   provisioned, switched it on and asked for a reboot unless the image is attached already, and only when an image
   that has cooled down exists, its files are complete, and the cluster's identity is stored in the three secrets.
   */
  lemma HostIsLaunchedOnlyWhenReady(o: Options, w: World, f: MainFaults, h: HostRef)
    requires h in w.hosts
    ensures HandledWithCare(o, w, MainReconcile(o, w, f).w, h)
  {
    hide Active, Finalize, PostCleanup, Find, HandledWithCare, HostsStep, OnlyReboots;
    SameHostsIsStep(o, w, w);
    StepIsCareful(o, w, w, h);
    if w.install.Some? {
      var i := w.install.value;
      var v := w.(install := Some(i.(finalizer := true)));
      SameHostsIsStep(o, w, v);
      StepIsCareful(o, w, v, h);
      WindingDownOnlyReboots(w, f);
      RebootIsCareful(o, w, Finalize(w, f).w, h);
      if InstallationCompleted(i) {
        CompletedIsCleanedUp(o, w, f);
        RebootIsCareful(o, w, PostCleanup(w, f).w, h);
      } else {
        ActiveHosts(o, w, f);
        StepIsCareful(o, w, Active(o, w, f).w, h);
      }
    }
  }
}
