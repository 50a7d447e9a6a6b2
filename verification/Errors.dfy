/**
 No error is swallowed: a call of either controller that ends without an error has done, and asks for, exactly what it
 would have without the failures it met. What the code only logs is listed by what the quiet calls below leave alone.
 */
module Errors {
  import opened Base
  import opened Spoke
  import opened Conditions
  import opened Credentials
  import opened ImageBuild
  import opened Hub
  import MachineNetworks
  import opened DataImages
  import opened MainReconciler
  import opened MainEffects
  import opened Monitor
  import opened MonitorEffects

  // ------------------------------------------------- calls without failures

  function QuietRemoval(f: RemovalFaults): RemovalFaults {
    f.(getImage := false, deleteImage := Fine, getHost := false, patchHost := Fine)
  }

  const QUIET := EnsureFault(false, Fine)

  const QUIET_ENSURE := EnsureFaults(QUIET, QUIET, QUIET)

  /** The error of removing the previous directory is ignored; a lock held by another process is no error. */
  function QuietImageBuild(f: BuildFaults): BuildFaults {
    f.(dirs := false, lock := false, workDir := false, inputs := false, read := ReadFaults(false, false, false),
       tempDir := false, configs := false, reinstall := ReinstallFaults(false, false, false, false),
       installer := f.installer.(fails := false), ensure := QUIET_ENSURE)
  }

  /**
   A deployment or a host that cannot be read counts as missing, and the errors of the two reports are only logged.
   All other failures are gone.
   */
  function Quiet(f: MainFaults): MainFaults {
    f.(getInstall := false, addFinalizer := Fine, dirs := false, lock := false, removal := Removed,
       imageRemoval := QuietRemoval(f.imageRemoval), dropFinalizer := Fine, recheckImage := false,
       restoreStatus := Fine, postCleanup := Fine, initialize := Fine, cleaning := Fine, external := Fine,
       readSeed := false, metadata := Fine, build := QuietImageBuild(f.build), url := false,
       getImage := false, ownerRef := false, createImage := Fine, rereadImage := false,
       provisioning := Fine, boot := Fine)
  }

  // ------------------------------------------------------ the data image

  lemma RemovalReports(w: World, ref: HostRef, f: RemovalFaults)
    requires !RemoveDataImage(w, ref, f).err
    ensures RemoveDataImage(w, ref, f) == RemoveDataImage(w, ref, QuietRemoval(f))
  {
  }

  lemma ReleaseReports(w: World, f: MainFaults)
    requires w.install.Some? && !Release(w, f).err
    ensures Release(w, f) == Release(w, Quiet(f))
  {
    hide RemoveDataImage, QuietImageBuild;
    if w.install.value.spec.host.Some? {
      RemovalReports(w, w.install.value.spec.host.value, f.imageRemoval);
    }
  }

  lemma FinalizeReports(w: World, f: MainFaults)
    requires w.install.Some? && !Finalize(w, f).err
    ensures Finalize(w, f) == Finalize(w, Quiet(f))
  {
    hide Release, QuietImageBuild, QuietRemoval;
    if !f.busy {
      ReleaseReports(w.(dirs := w.dirs - {w.install.value.uid}), f);
    }
  }

  lemma PostCleanupReports(w: World, f: MainFaults)
    requires w.install.Some? && !PostCleanup(w, f).err
    ensures PostCleanup(w, f) == PostCleanup(w, Quiet(f))
  {
    hide RemoveDataImage, QuietImageBuild;
    if w.install.value.postCleanup && w.install.value.spec.host.Some? {
      RemovalReports(w, w.install.value.spec.host.value, f.imageRemoval);
    }
  }

  // ------------------------------------------------------------ the build

  lemma EnsureReports(s: Secrets, deployment: string, files: IdentityFiles, f: EnsureFaults)
    requires !EnsureCreds(s, deployment, files, f).err
    ensures EnsureCreds(s, deployment, files, f) == EnsureCreds(s, deployment, files, QUIET_ENSURE)
  {
  }

  lemma RebuildReports(s: Secrets, prior: WorkDir, deployment: string, c: Config, f: BuildFaults)
    requires !Rebuild(s, prior, deployment, c, f).err
    ensures Rebuild(s, prior, deployment, c, f) == Rebuild(s, prior, deployment, c, QuietImageBuild(f))
  {
    hide IdentityOf, Content;
  }

  lemma BuildReports(s: Secrets, dir: Option<WorkDir>, deployment: string, c: Config, f: BuildFaults)
    requires WriteInputData(s, dir, deployment, c, f).result != BuildFailed
    ensures WriteInputData(s, dir, deployment, c, f) == WriteInputData(s, dir, deployment, c, QuietImageBuild(f))
  {
    hide Rebuild, EnsureCreds;
    var d := Present(dir);
    if !f.busy {
      if Built(d) {
        EnsureReports(s, deployment, Files(d), f.ensure);
      } else {
        RebuildReports(s, d, deployment, c, f);
        EnsureReports(s, deployment, Files(Rebuild(s, d, deployment, c, f).dir), f.ensure);
      }
    }
  }

  // ----------------------------------------------------------- the phases

  /** The phase went on, or ended the call without an error. */
  predicate Clean(p: Phase) {
    p.Proceed? || !p.err
  }

  lemma ConfigurationReports(w: World, list: seq<Condition>, deployment: Option<ClusterDeployment>, f: MainFaults)
    requires w.install.Some? && Clean(Configuration(w, list, deployment, f))
    ensures Configuration(w, list, deployment, f) == Configuration(w, list, deployment, Quiet(f))
  {
    hide QuietImageBuild, QuietRemoval;
  }

  lemma HostValidationReports(w: World, list: seq<Condition>, f: MainFaults)
    requires HostAt(w) && Clean(HostValidation(w, list, f))
    ensures HostValidation(w, list, f) == HostValidation(w, list, Quiet(f))
  {
    hide QuietImageBuild, QuietRemoval;
  }

  lemma SetMetadataReports(w: World, list: seq<Condition>, name: string, d: ClusterDeployment, f: MainFaults)
    requires w.install.Some? && Clean(SetMetadata(w, list, name, d, f))
    ensures SetMetadata(w, list, name, d, f) == SetMetadata(w, list, name, d, Quiet(f))
  {
    hide QuietImageBuild, QuietRemoval, MetadataComplete, MetadataPanics;
    assert !f.readSeed ==> NewMetadata(w.install.value.spec.metadata, w.secrets, name, d.clusterName, f)
                           == NewMetadata(w.install.value.spec.metadata, w.secrets, name, d.clusterName, Quiet(f));
  }

  lemma BeforeImageReports(w: World, list: seq<Condition>, deployment: Option<ClusterDeployment>, f: MainFaults)
    requires w.install.Some? && (deployment.Some? ==> w.install.value.spec.deployment.Some?)
    requires Clean(BeforeImage(w, list, deployment, f))
    ensures BeforeImage(w, list, deployment, f) == BeforeImage(w, list, deployment, Quiet(f))
  {
    hide Configuration, HostValidation, SetMetadata, Quiet;
    var a := Configuration(w, list, deployment, f);
    ConfigurationReports(w, list, deployment, f);
    if a.Proceed? {
      var b := HostValidation(a.w, list, f);
      HostValidationReports(a.w, list, f);
      if b.Proceed? {
        SetMetadataReports(b.w, list, w.install.value.spec.deployment.value, deployment.value, f);
      }
    }
  }

  lemma ImageCreationReports(w: World, list: seq<Condition>, name: string, d: ClusterDeployment, f: MainFaults)
    requires w.install.Some? && Clean(ImageCreation(w, list, name, d, f))
    ensures ImageCreation(w, list, name, d, f) == ImageCreation(w, list, name, d, Quiet(f))
  {
    hide WriteInputData, QuietImageBuild, QuietRemoval;
    var c := ConfigFor(w.install.value.spec.metadata, d, f.configRest);
    BuildReports(w.secrets, DirOf(w, w.install.value.uid), name, c, f.build);
  }

  lemma AttachImageReports(o: Options, w: World, list: seq<Condition>, f: MainFaults)
    requires HostAt(w) && Clean(AttachImage(o, w, list, f))
    ensures AttachImage(o, w, list, f) == AttachImage(o, w, list, Quiet(f))
  {
    hide QuietImageBuild, QuietRemoval;
  }

  lemma BootHostReports(w: World, list: seq<Condition>, f: MainFaults)
    requires HostAt(w) && RefOf(w) in w.images && Clean(BootHost(w, list, f))
    ensures BootHost(w, list, f) == BootHost(w, list, Quiet(f))
  {
    hide QuietImageBuild, QuietRemoval, Booted;
  }

  lemma PhasesReport(o: Options, w: World, list: seq<Condition>, deployment: Option<ClusterDeployment>, f: MainFaults)
    requires w.install.Some? && (deployment.Some? ==> w.install.value.spec.deployment.Some?)
    requires Clean(Phases(o, w, list, deployment, f))
    ensures Phases(o, w, list, deployment, f) == Phases(o, w, list, deployment, Quiet(f))
  {
    hide BeforeImage, ImageCreation, AttachImage, BootHost, Quiet;
    var c := BeforeImage(w, list, deployment, f);
    BeforeImageReports(w, list, deployment, f);
    if c.Proceed? {
      var name := w.install.value.spec.deployment.value;
      var e := ImageCreation(c.w, c.list, name, deployment.value, f);
      ImageCreationReports(c.w, c.list, name, deployment.value, f);
      if e.Proceed? {
        AttachImageReports(o, e.w, c.list, f);
        var a := AttachImage(o, e.w, c.list, f);
        if a.Proceed? {
          BootHostReports(a.w, c.list, f);
        }
      }
    }
  }

  // ------------------------------------------------------------- the call

  lemma PrepareReports(w: World, list: seq<Condition>, f: MainFaults)
    requires w.install.Some? && !Prepare(w, list, f).err
    ensures Prepare(w, list, f) == Prepare(w, list, Quiet(f))
  {
    hide QuietImageBuild, QuietRemoval, Initialized;
  }

  lemma GateReports(o: Options, w: World, list: seq<Condition>, deployment: Option<ClusterDeployment>, f: MainFaults)
    requires w.install.Some? && (deployment.Some? ==> w.install.value.spec.deployment.Some?)
    requires !AfterRestoreGate(o, w, list, deployment, f).err
    ensures AfterRestoreGate(o, w, list, deployment, f) == AfterRestoreGate(o, w, list, deployment, Quiet(f))
  {
    hide Prepare, Phases, QuietImageBuild, QuietRemoval, RecordReport;
    PrepareReports(w, list, f);
    var p := Prepare(w, list, f);
    PhasesReport(o, p.w, p.list, deployment, f);
  }

  lemma ActiveReports(o: Options, w: World, f: MainFaults)
    requires w.install.Some? && !Active(o, w, f).err
    ensures Active(o, w, f) == Active(o, w, Quiet(f))
  {
    hide AfterRestoreGate, PostCleanup, Find, BeingRestored, ImageReady, QuietImageBuild, QuietRemoval, RecordReport;
    if InstallationCompleted(w.install.value) {
      PostCleanupReports(w, f);
    } else {
      var h := Repair(w, f);
      assert h == Repair(w, Quiet(f)) && LookUpDeployment(w, f) == LookUpDeployment(w, Quiet(f));
      if !(w.install.value.status.bootTime.Some? && ImageReady(w, w.install.value.uid))
         && !BeingRestored(w.install.value) {
        assert h.w.install.value.spec == w.install.value.spec by { RepairKeepsSpec(w, f); }
        GateReports(o, h.w, h.list, LookUpDeployment(w, f), f);
      }
    }
  }

  lemma RepairKeepsSpec(w: World, f: MainFaults)
    requires w.install.Some?
    ensures Repair(w, f).w.install.value.spec == w.install.value.spec
  {
  }

  /** A call of the main controller that ends without an error is the quiet call. */
  lemma NoErrorIsSwallowed(o: Options, w: World, f: MainFaults)
    requires !MainReconcile(o, w, f).err
    ensures MainReconcile(o, w, f) == MainReconcile(o, w, Quiet(f))
  {
    hide Finalize, Active, QuietImageBuild, QuietRemoval;
    if w.install.Some? {
      if w.install.value.deleting {
        FinalizeReports(w, f);
      } else if w.install.value.finalizer {
        ActiveReports(o, w, f);
      }
    }
  }

  // --------------------------------------------------------- lost writes

  /** Of two worlds: what a call would have written differs only where its write was not lost. */
  predicate OnlyUnlost(w: World, v: World, f: MainFaults) {
    && w.install.Some? && v.install.Some?
    && (f.metadata == Lost ==> v.install.value.spec.metadata == w.install.value.spec.metadata)
    && (f.boot == Lost ==> BootKept(w, v))
    && (f.createImage == Lost ==> v.images == w.images)
    && (f.cleaning == Lost && f.external == Lost && f.provisioning == Lost ==> v.hosts == w.hosts)
  }

  lemma BeforeImageLost(w: World, list: seq<Condition>, deployment: Option<ClusterDeployment>, f: MainFaults)
    requires w.install.Some? && (deployment.Some? ==> w.install.value.spec.deployment.Some?)
    ensures var p := BeforeImage(w, list, deployment, f); OnlyUnlost(w, p.w, f) && p.w.images == w.images
  {
    hide MetadataComplete, MetadataPanics, NewMetadata, MachineNetworks.Accepts;
  }

  lemma HostConfigurationLost(o: Options, w: World, list: seq<Condition>, f: MainFaults)
    requires HostAt(w)
    ensures OnlyUnlost(w, HostConfiguration(o, w, list, f).w, f)
  {
  }

  lemma PhasesLost(o: Options, w: World, list: seq<Condition>, deployment: Option<ClusterDeployment>, f: MainFaults)
    requires w.install.Some? && (deployment.Some? ==> w.install.value.spec.deployment.Some?)
    ensures OnlyUnlost(w, Phases(o, w, list, deployment, f).w, f)
  {
    hide BeforeImage, HostConfiguration, BuildFor;
    var c := BeforeImage(w, list, deployment, f);
    BeforeImageLost(w, list, deployment, f);
    if c.Proceed? {
      var e := ImageCreation(c.w, c.list, w.install.value.spec.deployment.value, deployment.value, f);
      if e.Proceed? {
        HostConfigurationLost(o, e.w, c.list, f);
      }
    }
  }

  /** The worlds differ in annotations and conditions at most. */
  predicate OnlyMarked(w: World, v: World) {
    && w.install.Some? && v.install.Some? && v == w.(install := v.install)
    && v.install.value.spec == w.install.value.spec && BootKept(w, v)
  }

  lemma PrepareMarks(w: World, list: seq<Condition>, f: MainFaults)
    requires w.install.Some?
    ensures OnlyMarked(w, Prepare(w, list, f).w)
  {
    hide AnnotateBoth, Initialized, Core;
    AnnotateBothTouches(w, list, f);
  }

  lemma RunPhasesLost(o: Options, w: World, list: seq<Condition>, deployment: Option<ClusterDeployment>, f: MainFaults)
    requires w.install.Some? && (deployment.Some? ==> w.install.value.spec.deployment.Some?)
    ensures OnlyUnlost(w, RunPhases(o, w, list, deployment, f).w, f)
  {
    hide Phases, Set;
    PhasesLost(o, w, list, deployment, f);
  }

  lemma GateLost(o: Options, w: World, list: seq<Condition>, deployment: Option<ClusterDeployment>, f: MainFaults)
    requires w.install.Some? && (deployment.Some? ==> w.install.value.spec.deployment.Some?)
    ensures OnlyUnlost(w, AfterRestoreGate(o, w, list, deployment, f).w, f)
  {
    hide RunPhases, Prepare, OnlyUnlost, OnlyMarked;
    var p := Prepare(w, list, f);
    PrepareMarks(w, list, f);
    UnlostFrame(w, p.w, p.w, f);
    if !p.err {
      RunPhasesLost(o, p.w, p.list, deployment, f);
      UnlostFrame(w, p.w, RunPhases(o, p.w, p.list, deployment, f).w, f);
    }
  }

  /**
   A write that is lost leaves its object as it was: the metadata, the recorded start, the data images, and with all
   three of its patches lost the host.
   */
  lemma LostWritesLeaveNoTrace(o: Options, w: World, f: MainFaults)
    requires w.install.Some? && !InstallationCompleted(w.install.value)
    ensures OnlyUnlost(w, Active(o, w, f).w, f)
  {
    hide AfterRestoreGate, RecordReport, Find, OnlyUnlost, OnlyMarked;
    var h := Repair(w, f);
    RepairKeepsSpec(w, f);
    RepairMarks(w, f);
    GateLost(o, h.w, h.list, LookUpDeployment(w, f), f);
    UnlostFrame(w, h.w, h.w, f);
    UnlostFrame(w, h.w, AfterRestoreGate(o, h.w, h.list, LookUpDeployment(w, f), f).w, f);
  }

  lemma RepairMarks(w: World, f: MainFaults)
    requires w.install.Some?
    ensures OnlyMarked(w, Repair(w, f).w)
  {
    hide Set, Find;
  }

  lemma UnlostFrame(w: World, u: World, v: World, f: MainFaults)
    requires OnlyMarked(w, u)
    ensures OnlyUnlost(u, u, f) && (OnlyUnlost(u, v, f) ==> OnlyUnlost(w, v, f))
  {
  }

  // ---------------------------------------------------------- the monitor

  /** The error of recording progress is only logged. */
  function QuietWatch(f: MonitorFaults): MonitorFaults {
    f.(getInstall := false, getHost := false, getImage := false, spokeClient := false,
       removal := QuietRemoval(f.removal), recheckImage := false)
  }

  lemma CompleteReports(w: World, ref: HostRef, f: MonitorFaults)
    requires w.install.Some? && !Complete(w, w.install.value, ref, f).err
    ensures Complete(w, w.install.value, ref, f) == Complete(w, w.install.value, ref, QuietWatch(f))
  {
    hide RemoveDataImage, RecordProgress, QuietRemoval;
    RemovalReports(w, ref, f.removal);
  }

  lemma WaitReports(o: Options, w: World, m: Message, f: MonitorFaults)
    requires w.install.Some?
    ensures Wait(o, w, w.install.value, m, f) == Wait(o, w, w.install.value, m, QuietWatch(f))
  {
    hide RecordProgress, QuietRemoval;
  }

  /** A call of the monitor that ends without an error is the quiet call. */
  lemma NoErrorIsSwallowedWatching(o: Options, w: World, f: MonitorFaults)
    requires !MonitorReconcile(o, w, f).err
    ensures MonitorReconcile(o, w, f) == MonitorReconcile(o, w, QuietWatch(f))
  {
    hide Wait, Complete, RecordProgress, QuietRemoval, IsInstalled, InstallStatus, Find;
    if w.install.Some? && w.install.value.status.host.Some? {
      WaitReports(o, w, AWAITING_POWER, f);
      WaitReports(o, w, StatusText(InstallStatus(f.spoke)), f);
      var ref := w.install.value.status.host.value;
      if !Complete(w, w.install.value, ref, f).err {
        CompleteReports(w, ref, f);
      }
    }
  }

  /**
   Whatever fails: a call of the monitor on a watched installation that ends without an error and does not ask to come
   back has recorded the completion, and the data image of the host is gone.
   */
  lemma SilentEndIsCompletion(o: Options, w: World, f: MonitorFaults)
    requires Watched(w) && !MonitorReconcile(o, w, f).err && MonitorReconcile(o, w, f).requeue == NoRequeue
    ensures var v := MonitorReconcile(o, w, f).w;
      && v.install.Some? && ShowsInstalled(Stored(v))
      && HostImageGone(v.images, w.install.value) && IsInstalled(f.spoke)
  {
    hide IsInstalled, InstallStatus, RemoveDataImage, RecordProgress, Find, Installing, TimedOut, Installed;
    var ref := w.install.value.status.host.value;
    assert MonitorReconcile(o, w, f) == Complete(w, w.install.value, ref, f) && IsInstalled(f.spoke);
    var r := RemoveDataImage(w, ref, f.removal);
    RecordProgressEffect(r.w, Installed(), f.record);
    ProgressShows(Stored(w), w.now, AWAITING_DELETION, 0);
  }
}
