/** What the invariant and the single steps guarantee about whole runs. */
module Guarantees {
  import opened Base
  import opened Spoke
  import opened Conditions
  import opened ImageBuild
  import opened Hub
  import opened DataImages
  import opened MainReconciler
  import opened Monitor
  import opened MainEffects
  import opened MonitorEffects
  import opened Webhook
  import opened System
  import opened Safety

  lemma InitialInv(w: World)
    requires Initial(w)
    ensures Inv(w)
  {
  }

  // ---------------------------------------------------- legal conditions

  /**
   In every reachable state there is one condition per type at most, and the three progress conditions are all absent or
   show one of four combinations: an installation is never both completed and failed, and it is stopped exactly when it
   is completed.
   */
  lemma ProgressIsLegal(o: Options, w: World, run: seq<Event>)
    requires Initial(w) && FittingRun(o, w, run)
    ensures var v := After(o, w, run);
      v.install.Some? ==>
        var list := v.install.value.status.conditions;
        && Distinct(list)
        && LegalProgress(list)
        && !(HasStatus(list, Completed, True) && HasStatus(list, Failed, True))
        && (HasStatus(list, Stopped, True) <==> HasStatus(list, Completed, True))
        && (SaysMet(list) ==> v.install.value.status.bootTime.Some?)
  {
    hide After, FittingRun;
    InitialInv(w);
    RunKeepsSane(o, w, run);
  }

  // ------------------------------------------------------- what survives

  /** The same object, with a start that is never rewritten and, once completed, a status that is never rewritten. */
  predicate SameInstallation(a: Install, b: Install) {
    && a.uid == b.uid
    && a.namespace == b.namespace
    && (a.status.host.Some? ==> b.status.host == a.status.host && b.status.bootTime == a.status.bootTime)
    && (ShowsInstalled(a.status.conditions) ==> b.status == a.status)
  }

  lemma ActiveKeepsInstallation(o: Options, w: World, f: MainFaults)
    requires Inv(w) && w.install.Some? && !InstallationCompleted(w.install.value)
    ensures var v := Active(o, w, f).w;
      && v.install.Some?
      && SameInstallation(w.install.value, v.install.value)
      && UserSpec(v.install.value.spec) == UserSpec(w.install.value.spec)
  {
    hide Active, Find, ReadyToBoot, Validate, SameProgress, Filled, LegalProgress, NotYetWatched;
    var v := Active(o, w, f).w;
    ActiveEffect(o, w, f);
    CoreFields(w.install.value, v.install.value);
  }

  lemma SameWithFinalizer(i: Install, finalizer: bool)
    ensures SameInstallation(i, i.(finalizer := finalizer))
    ensures UserSpec(i.(finalizer := finalizer).spec) == UserSpec(i.spec)
    ensures i.(finalizer := i.finalizer) == i
  {
  }

  lemma MainKeepsInstallation(o: Options, w: World, f: MainFaults)
    requires Inv(w)
    ensures var v := MainReconcile(o, w, f).w;
      v.install.Some? ==>
        && w.install.Some?
        && SameInstallation(w.install.value, v.install.value)
        && UserSpec(v.install.value.spec) == UserSpec(w.install.value.spec)
  {
    hide Finalize, Active, PostCleanup, Inv, Find, SameInstallation, UserSpec, RemovalStep;
    if w.install.Some? {
      FinalizeEffect(w, f);
      SameWithFinalizer(w.install.value, true);
      SameWithFinalizer(w.install.value, false);
      SameWithFinalizer(w.install.value, w.install.value.finalizer);
      if InstallationCompleted(w.install.value) {
        CompletedIsCleanedUp(o, w, f);
        PostCleanupEffect(w, f);
      } else {
        ActiveKeepsInstallation(o, w, f);
      }
    }
  }

  /** No step but the creation of a new object brings an installation with another UID. */
  lemma StepKeepsInstallation(o: Options, w: World, e: Event)
    requires Inv(w) && Enabled(w, e) && !IsRestore(e)
    ensures var v := Apply(o, w, e);
      && w.uids <= v.uids
      && (v.install.Some? ==>
            || (w.install.Some? && SameInstallation(w.install.value, v.install.value))
            || v.install.value.uid !in w.uids)
  {
    hide MainReconcile, MonitorReconcile, Find, Validate, LegalProgress, NotYetWatched, ShowsInstalled, SaysMet;
    match e {
      case Main(f) =>
        MainKeepsInstallation(o, w, f);
        MainKeepsUids(o, w, f);
      case Watch(f) =>
        if w.install.Some? {
          MonitorEffect(o, w, f);
          MonitorKeepsInstallation(o, w, f);
        } else {
          MonitorIdle(o, w, f);
        }
      case _ =>
    }
  }

  lemma MonitorIdle(o: Options, w: World, f: MonitorFaults)
    requires w.install.None?
    ensures MonitorReconcile(o, w, f).w == w
  {
  }

  lemma MonitorKeepsInstallation(o: Options, w: World, f: MonitorFaults)
    requires w.install.Some?
    ensures var v := MonitorReconcile(o, w, f).w;
            v.install.Some? && SameInstallation(w.install.value, v.install.value)
  {
    hide MonitorReconcile, Find;
    MonitorEffect(o, w, f);
    if ShowsInstalled(w.install.value.status.conditions) {
      assert InstallationCompleted(w.install.value);
    }
  }

  lemma MainKeepsUids(o: Options, w: World, f: MainFaults)
    ensures MainReconcile(o, w, f).w.uids == w.uids
  {
    hide Finalize, Active, PostCleanup;
    if w.install.Some? {
      FinalizeEffect(w, f);
      if InstallationCompleted(w.install.value) {
        CompletedIsCleanedUp(o, w, f);
        PostCleanupEffect(w, f);
      } else {
        ActiveEffect(o, w, f);
      }
    }
  }

  // -------------------------------------------- once, and never again

  /** The object `u` is gone for good, or it still exists with this start. */
  predicate StartedAs(w: World, u: string, host: HostRef, boot: int) {
    && u in w.uids
    && (w.install.Some? && w.install.value.uid == u ==>
          w.install.value.status.host == Some(host) && w.install.value.status.bootTime == Some(boot))
  }

  /**
   Boot time and host reference, once set, never change; and in every later state the host reference equals
   the one in the specification, so that monitor, clean-up and finalizer all act on the same host.
   */
  lemma {:induction false} StartIsFinal(o: Options, w: World, run: seq<Event>, u: string, host: HostRef, boot: int)
    requires Inv(w) && Possible(o, w, run) && NoRestore(run)
    requires StartedAs(w, u, host, boot)
    ensures var v := After(o, w, run);
      && StartedAs(v, u, host, boot)
      && (v.install.Some? && v.install.value.uid == u ==> v.install.value.spec.host == Some(host))
    decreases |run|
  {
    hide Apply, Enabled, Find, Validate, LegalProgress, NotYetWatched, ShowsInstalled, SaysMet, AllReported;
    if run != [] {
      assert !IsRestore(run[0]);
      StepKeepsInv(o, w, run[0]);
      StepKeepsInstallation(o, w, run[0]);
      StartIsFinal(o, Apply(o, w, run[0]), run[1..], u, host, boot);
    }
  }

  /** The object `u` is gone for good, or it still exists with this status. */
  predicate CompletedAs(w: World, u: string, status: Status) {
    && u in w.uids
    && ShowsInstalled(status.conditions)
    && (w.install.Some? && w.install.value.uid == u ==> w.install.value.status == status)
  }

  /**
   Completion is terminal: no later step of either controller, of users or of the environment changes the
   conditions, the boot time or the host reference, and the host never has a data image again.
   */
  lemma {:induction false} CompletionIsFinal(o: Options, w: World, run: seq<Event>, u: string, status: Status)
    requires Inv(w) && Possible(o, w, run) && NoRestore(run)
    requires CompletedAs(w, u, status)
    ensures var v := After(o, w, run);
      && CompletedAs(v, u, status)
      && (v.install.Some? && v.install.value.uid == u ==> status.host.Some? && status.host.value !in v.images)
    decreases |run|
  {
    hide Apply, Enabled, Find, Validate, LegalProgress, NotYetWatched, ShowsInstalled, SaysMet, AllReported;
    if run != [] {
      assert !IsRestore(run[0]);
      StepKeepsInv(o, w, run[0]);
      StepKeepsInstallation(o, w, run[0]);
      CompletionIsFinal(o, Apply(o, w, run[0]), run[1..], u, status);
    }
  }

  // ------------------------------------------------- the start of a boot

  lemma MainStart(o: Options, w: World, f: MainFaults)
    requires Inv(w) && w.install.Some? && w.install.value.status.bootTime.None?
    requires var v := MainReconcile(o, w, f).w; v.install.Some? && v.install.value.status.bootTime.Some?
    ensures var v := MainReconcile(o, w, f).w;
      && v.install.value.status.bootTime == Some(w.now)
      && v.install.value.status.host == v.install.value.spec.host
      && v.install.value.spec.deployment.Some?
      && ReadyToBoot(o, v, v.install.value.spec.deployment.value)
  {
    hide Finalize, Active, PostCleanup, Find, ReadyToBoot, Validate, RemovalStep;
    FinalizeEffect(w, f);
    if InstallationCompleted(w.install.value) {
      CompletedIsCleanedUp(o, w, f);
      PostCleanupEffect(w, f);
    } else {
      var v := Active(o, w, f).w;
      ActiveEffect(o, w, f);
      CoreFields(w.install.value, v.install.value);
    }
  }

  /**
   An installation is recorded as started only by the main controller, at the current time and for the host in
   the specification, and only in a state where the deployment is found, the host is prepared and managed, the
   metadata is complete and refers to the secrets that hold the kubeconfig and the password on disk, the image is
   built, its identity is stored in the three secrets, and a data image that has cooled down is attached and not
   terminating.
   */
  lemma StartNeedsReadiness(o: Options, w: World, e: Event)
    requires Inv(w) && Enabled(w, e) && !IsRestore(e)
    requires w.install.Some? && w.install.value.status.bootTime.None?
    requires var v := Apply(o, w, e); v.install.Some? && v.install.value.status.bootTime.Some?
    ensures var v := Apply(o, w, e);
      && e.Main?
      && v.install.value.status.bootTime == Some(w.now)
      && v.install.value.status.host == v.install.value.spec.host
      && v.install.value.spec.deployment.Some?
      && ReadyToBoot(o, v, v.install.value.spec.deployment.value)
      && RefersToFiles(v, v.install.value.uid, v.install.value.spec.deployment.value)
  {
    hide MainReconcile, MonitorReconcile, ReadyToBoot, RefersToFiles, Find, Validate;
    match e {
      case Main(f) =>
        MainStart(o, w, f);
        var v := Apply(o, w, e);
        ReadyRefers(o, v, v.install.value.spec.deployment.value);
      case Watch(f) => MonitorEffect(o, w, f);
      case _ =>
    }
  }

  // ------------------------------------------------------------- timeouts

  predicate ShowsFailed(list: seq<Condition>) {
    HasStatus(list, Failed, True)
  }

  lemma ActiveKeepsFailed(o: Options, w: World, f: MainFaults)
    requires w.install.Some? && !InstallationCompleted(w.install.value)
    ensures ActiveStep(o, w, Active(o, w, f).w)
    ensures ShowsFailed(Stored(Active(o, w, f).w)) <==> ShowsFailed(Stored(w))
  {
    hide Active, ReadyToBoot, Core, ImagesStep, NewBoot, SaysMet;
    ActiveEffect(o, w, f);
  }

  lemma MainKeepsFailed(o: Options, w: World, f: MainFaults)
    requires w.install.Some? && MainReconcile(o, w, f).w.install.Some?
    ensures ShowsFailed(Stored(MainReconcile(o, w, f).w)) <==> ShowsFailed(Stored(w))
  {
    hide Finalize, Active, PostCleanup, RemovalStep, ShowsFailed, Find;
    var i := w.install.value;
    if f.getInstall || (!i.deleting && !i.finalizer) {
    } else if i.deleting {
      FinalizeEffect(w, f);
    } else if InstallationCompleted(i) {
      CompletedIsCleanedUp(o, w, f);
      PostCleanupEffect(w, f);
    } else {
      ActiveKeepsFailed(o, w, f);
    }
  }

  /**
   Failed becomes True only in a step of the monitor that finds the clock strictly past the boot time plus the
   timeout in force; it is left only by an installation that completes or by a step that sees the host's data
   image terminating.
   */
  lemma FailureFollowsTimeout(o: Options, w: World, e: Event)
    requires Inv(w) && Enabled(w, e) && !IsRestore(e)
    requires w.install.Some? && Apply(o, w, e).install.Some?
    ensures var v := Apply(o, w, e); var i := w.install.value;
      && (ShowsFailed(v.install.value.status.conditions) && !ShowsFailed(i.status.conditions) ==>
            e.Watch? && PastTimeout(o, w, i))
      && (ShowsFailed(i.status.conditions) && !ShowsFailed(v.install.value.status.conditions) ==>
            && e.Watch?
            && (ShowsInstalled(v.install.value.status.conditions) || HostImageTerminating(v.images, i)))
  {
    hide MainReconcile, MonitorReconcile, Validate;
    match e {
      case Main(f) => MainKeepsFailed(o, w, f);
      case Watch(f) => MonitorEffect(o, w, f);
      case _ =>
    }
  }

  // ----------------------------------------------------------- completion

  lemma ActiveKeepsCompleted(o: Options, w: World, f: MainFaults)
    requires w.install.Some? && !InstallationCompleted(w.install.value)
    ensures ActiveStep(o, w, Active(o, w, f).w)
    ensures !InstallationCompleted(Active(o, w, f).w.install.value)
  {
    hide Active, ReadyToBoot, Core, ImagesStep, NewBoot, SaysMet;
    ActiveEffect(o, w, f);
  }

  lemma MainKeepsCompleted(o: Options, w: World, f: MainFaults)
    requires w.install.Some? && MainReconcile(o, w, f).w.install.Some? && !InstallationCompleted(w.install.value)
    ensures !InstallationCompleted(MainReconcile(o, w, f).w.install.value)
  {
    hide Finalize, Active, PostCleanup, RemovalStep, Find;
    FinalizeEffect(w, f);
    ActiveKeepsCompleted(o, w, f);
  }

  /**
   An installation is recorded as completed only in a step of the monitor that finds the cluster version available
   since the reconfiguration and every node ready, on a powered-on host whose data image is gone by then.
   */
  lemma CompletionNeedsInstalledCluster(o: Options, w: World, e: Event)
    requires Inv(w) && Enabled(w, e) && !IsRestore(e)
    requires w.install.Some? && !InstallationCompleted(w.install.value)
    requires var v := Apply(o, w, e); v.install.Some? && InstallationCompleted(v.install.value)
    ensures var v := Apply(o, w, e); var i := w.install.value;
      && e.Watch? && IsInstalled(e.watch.spoke)
      && i.status.bootTime.Some?
      && i.status.host.Some? && i.status.host.value in w.hosts && w.hosts[i.status.host.value].poweredOn
      && HostImageGone(v.images, i)
  {
    hide MainReconcile, MonitorReconcile, Validate, IsInstalled, Distinct, AllReported, SaysMet, NotYetWatched,
         LegalProgress, ImagesShrink;
    match e {
      case Main(f) => MainKeepsCompleted(o, w, f);
      case Watch(f) =>
        MonitorEffect(o, w, f);
        CompletedIsPowered(o, w, f);
      case _ =>
    }
  }

  lemma CompletedIsPowered(o: Options, w: World, f: MonitorFaults)
    requires Inv(w) && w.install.Some? && !InstallationCompleted(w.install.value)
    requires InstallationCompleted(MonitorReconcile(o, w, f).w.install.value)
    ensures var i := w.install.value;
      i.status.host.Some? && i.status.host.value in w.hosts && w.hosts[i.status.host.value].poweredOn
  {
    hide CheckClusterStatus, Wait, IsInstalled, Find;
    var i := w.install.value;
    if !f.getInstall && i.status.bootTime.Some? && i.status.host.Some? && !f.getHost && i.status.host.value in w.hosts
       && !w.hosts[i.status.host.value].poweredOn {
      WaitNeverCompletes(o, w, f);
    }
  }

  lemma WaitNeverCompletes(o: Options, w: World, f: MonitorFaults)
    requires w.install.Some? && !InstallationCompleted(w.install.value)
    ensures !InstallationCompleted(Wait(o, w, w.install.value, AWAITING_POWER, f).w.install.value)
  {
    hide RecordProgress, InstallationCompleted, InstallationTimedOut;
    var i := w.install.value;
    if EffectiveTimeout(o, i).Some? {
      RecordNeverCompletes(w, TimedOut(EffectiveTimeout(o, i).value), f.record);
    }
    RecordNeverCompletes(w, Installing(AWAITING_POWER), f.record);
  }

  lemma RecordNeverCompletes(w: World, p: Progress, fault: WriteFault)
    requires w.install.Some? && !InstallationCompleted(w.install.value) && WellTyped(p) && p.completed.status == False
    ensures !InstallationCompleted(RecordProgress(w, w.install.value, p, fault).w.install.value)
  {
    hide SetProgress;
  }

  // ------------------------------------------------------------- deletion

  /**
   The finalizer leaves a deleting installation only in a step that has removed its working directory and after
   which its host has no data image, or the host itself is gone and the deletion of the image has been requested.
   */
  lemma FinalizerLeavesClean(o: Options, w: World, f: MainFaults)
    requires w.install.Some? && w.install.value.finalizer
    requires var v := MainReconcile(o, w, f).w; v.install.None? || !v.install.value.finalizer
    ensures var v := MainReconcile(o, w, f).w; var i := w.install.value;
      && i.deleting
      && i.uid !in v.dirs
      && (i.spec.host.Some? ==>
            || i.spec.host.value !in v.images
            || (i.spec.host.value !in v.hosts && v.images[i.spec.host.value].terminating))
  {
    if w.install.value.deleting && !f.getInstall {
      FinalizedClean(w, f);
    } else {
      FinalizerStays(o, w, f);
    }
  }

  lemma FinalizerStays(o: Options, w: World, f: MainFaults)
    requires w.install.Some? && w.install.value.finalizer && (!w.install.value.deleting || f.getInstall)
    ensures var v := MainReconcile(o, w, f).w; v.install.Some? && v.install.value.finalizer
  {
    hide PostCleanup, Finalize, Active, Find, RemovalStep;
    if InstallationCompleted(w.install.value) {
      CompletedIsCleanedUp(o, w, f);
      PostCleanupEffect(w, f);
    } else {
      ActiveEffect(o, w, f);
      CoreFields(w.install.value, Active(o, w, f).w.install.value);
    }
  }

  lemma FinalizedClean(w: World, f: MainFaults)
    requires w.install.Some? && w.install.value.finalizer
    requires var v := Finalize(w, f).w; v.install.None? || !v.install.value.finalizer
    ensures var v := Finalize(w, f).w; var i := w.install.value;
      && i.uid !in v.dirs
      && (i.spec.host.Some? ==>
            || i.spec.host.value !in v.images
            || (i.spec.host.value !in v.hosts && v.images[i.spec.host.value].terminating))
  {
    hide Release, AfterRemoval;
    var u := w.(dirs := w.dirs - {w.install.value.uid});
    assert Finalize(w, f) == Release(u, f);
    ReleasedClean(u, f);
    ReleaseEffect(u, f);
  }

  lemma ReleasedClean(w: World, f: MainFaults)
    requires w.install.Some? && w.install.value.finalizer
    requires var v := Release(w, f).w; v.install.None? || !v.install.value.finalizer
    ensures var v := Release(w, f).w; var i := w.install.value;
      i.spec.host.Some? ==>
        || i.spec.host.value !in v.images
        || (i.spec.host.value !in v.hosts && v.images[i.spec.host.value].terminating)
  {
    hide RemoveDataImage;
    var r := RemoveNamedImage(w, f.imageRemoval);
    assert !r.err && r.image.None? && Release(w, f).w == DropFinalizer(r.w);
  }

  /** The image files that exist afterwards existed before. */
  predicate NoNewImageFile(before: map<string, WorkDir>, after: map<string, WorkDir>) {
    forall u :: u in after && after[u].iso.Some? ==> u in before && before[u].iso == after[u].iso
  }

  lemma FinalizeCreatesNothing(w: World, f: MainFaults)
    requires w.install.Some?
    ensures NoNewImageFile(w.dirs, Finalize(w, f).w.dirs)
  {
    hide Release;
    ReleaseEffect(w.(dirs := w.dirs - {w.install.value.uid}), f);
  }

  /** Nothing new appears, and the deletion request stands. */
  predicate OnlyWindsDown(w: World, v: World)
    requires w.install.Some?
  {
    && v.images.Keys <= w.images.Keys
    && NoNewImageFile(w.dirs, v.dirs)
    && (v.install.Some? ==> v.install.value.deleting && v.install.value.uid == w.install.value.uid)
  }

  lemma FinalizeWindsDown(w: World, f: MainFaults)
    requires w.install.Some? && w.install.value.deleting
    ensures OnlyWindsDown(w, Finalize(w, f).w)
  {
    hide Finalize, NoNewImageFile;
    FinalizeEffect(w, f);
    FinalizeCreatesNothing(w, f);
  }

  lemma MonitorWindsDown(o: Options, w: World, f: MonitorFaults)
    requires w.install.Some? && w.install.value.deleting
    ensures OnlyWindsDown(w, MonitorReconcile(o, w, f).w)
  {
    hide MonitorReconcile, Find, Recordable;
    MonitorEffect(o, w, f);
  }

  /** Once deletion has been requested no step creates a data image or an image file, and the request stands. */
  lemma NothingIsCreatedAfterDeletion(o: Options, w: World, e: Event)
    requires Enabled(w, e) && w.install.Some? && w.install.value.deleting
    ensures OnlyWindsDown(w, Apply(o, w, e))
  {
    hide Finalize, MonitorReconcile, Active, Find, Validate;
    match e {
      case Main(f) => FinalizeWindsDown(w, f);
      case Watch(f) => MonitorWindsDown(o, w, f);
      case _ =>
    }
  }

  // ------------------------------------------------- every step of a run

  /** The installation that is there before and after a step. */
  predicate Remains(w: World, v: World) {
    w.install.Some? && v.install.Some? && v.install.value.uid == w.install.value.uid
  }

  /** The start is recorded once, by the main controller, when everything is ready. */
  predicate SoundStart(o: Options, w: World, e: Event, v: World)
    requires Remains(w, v)
  {
    var i, j := w.install.value, v.install.value;
    && (i.status.bootTime.None? && j.status.bootTime.Some? ==>
          && e.Main? && j.status.bootTime == Some(w.now) && j.status.host == j.spec.host
          && j.spec.deployment.Some? && ReadyToBoot(o, v, j.spec.deployment.value)
          && RefersToFiles(v, j.uid, j.spec.deployment.value))
    && (i.status.bootTime.Some? ==> j.status.bootTime == i.status.bootTime && j.status.host == i.status.host)
  }

  /** Failed follows the timeout, and is left for a completion or while the image goes away. */
  predicate SoundFailure(o: Options, w: World, e: Event, v: World)
    requires Remains(w, v)
  {
    var i, j := w.install.value, v.install.value;
    && (!ShowsFailed(i.status.conditions) && ShowsFailed(j.status.conditions) ==> e.Watch? && PastTimeout(o, w, i))
    && (ShowsFailed(i.status.conditions) && !ShowsFailed(j.status.conditions) ==>
          e.Watch? && (ShowsInstalled(j.status.conditions) || HostImageTerminating(v.images, i)))
  }

  /** Completion is recorded for an installed cluster whose image is gone, and then the status stands still. */
  predicate SoundCompletion(w: World, e: Event, v: World)
    requires Remains(w, v)
  {
    var i, j := w.install.value, v.install.value;
    && (!InstallationCompleted(i) && InstallationCompleted(j) ==>
          e.Watch? && IsInstalled(e.watch.spoke) && HostImageGone(v.images, i))
    && (InstallationCompleted(i) ==> j.status == i.status)
  }

  /** The finalizer is taken away by the main controller, from a deleting installation that leaves nothing behind. */
  predicate SoundRelease(w: World, e: Event, v: World) {
    w.install.Some? && w.install.value.finalizer && (v.install.None? || !v.install.value.finalizer) ==>
      var i := w.install.value;
      && e.Main? && i.deleting && i.uid !in v.dirs
      && (i.spec.host.Some? ==>
            || i.spec.host.value !in v.images
            || (i.spec.host.value !in v.hosts && v.images[i.spec.host.value].terminating))
  }

  /** What is true of a step `e` taken in the state `w`. */
  predicate SoundStep(o: Options, w: World, e: Event) {
    var v := Apply(o, w, e);
    && (Remains(w, v) ==> SoundStart(o, w, e, v) && SoundFailure(o, w, e, v) && SoundCompletion(w, e, v))
    && (w.install.Some? && w.install.value.deleting ==> OnlyWindsDown(w, v))
    && SoundRelease(w, e, v)
  }

  /** No event but a call of the main controller takes the finalizer away. */
  lemma ReleaseIsSound(o: Options, w: World, e: Event)
    requires Enabled(w, e)
    ensures SoundRelease(w, e, Apply(o, w, e))
  {
    hide MainReconcile, MonitorReconcile, Validate, Find, Recordable, ImagesShrink;
    if w.install.Some? && w.install.value.finalizer {
      match e {
        case Main(f) =>
          if MainReconcile(o, w, f).w.install.None? || !MainReconcile(o, w, f).w.install.value.finalizer {
            FinalizerLeavesClean(o, w, f);
          }
        case Watch(f) => MonitorEffect(o, w, f);
        case _ =>
      }
    }
  }

  lemma StartIsSound(o: Options, w: World, e: Event)
    requires Inv(w) && Enabled(w, e) && !IsRestore(e) && Remains(w, Apply(o, w, e))
    ensures SoundStart(o, w, e, Apply(o, w, e))
  {
    var v := Apply(o, w, e);
    hide Apply, Enabled, Find, ReadyToBoot, RefersToFiles, Validate, AllReported, SaysMet, ShowsInstalled,
         LegalProgress, NotYetWatched;
    StepKeepsInstallation(o, w, e);
    if w.install.value.status.bootTime.None? && v.install.value.status.bootTime.Some? {
      StartNeedsReadiness(o, w, e);
    }
  }

  lemma CompletedShowsInstalled(w: World)
    requires Inv(w) && w.install.Some? && InstallationCompleted(w.install.value)
    ensures ShowsInstalled(w.install.value.status.conditions)
  {
  }

  lemma CompletionIsSound(o: Options, w: World, e: Event)
    requires Inv(w) && Enabled(w, e) && !IsRestore(e) && Remains(w, Apply(o, w, e))
    ensures SoundCompletion(w, e, Apply(o, w, e))
  {
    var v := Apply(o, w, e);
    hide Apply, Enabled, Find, IsInstalled, ShowsInstalled, StatusOk, InstallationCompleted;
    if InstallationCompleted(w.install.value) {
      CompletedShowsInstalled(w);
      assert w.install.value.uid in w.uids by { InvUid(w); }
      StepKeepsInstallation(o, w, e);
    } else if InstallationCompleted(v.install.value) {
      CompletionNeedsInstalledCluster(o, w, e);
    }
  }

  lemma InvUid(w: World)
    requires Inv(w) && w.install.Some?
    ensures w.install.value.uid in w.uids
  {
  }

  lemma StepIsSound(o: Options, w: World, e: Event)
    requires Inv(w) && Enabled(w, e) && !IsRestore(e)
    ensures SoundStep(o, w, e)
  {
    hide Apply, Enabled, Inv, SoundStart, SoundCompletion, SoundRelease, OnlyWindsDown, IsRestore;
    ReleaseIsSound(o, w, e);
    if Remains(w, Apply(o, w, e)) {
      StartIsSound(o, w, e);
      FailureFollowsTimeout(o, w, e);
      CompletionIsSound(o, w, e);
    }
    if w.install.Some? && w.install.value.deleting {
      NothingIsCreatedAfterDeletion(o, w, e);
    }
  }

  lemma {:induction false} StepOfRun(o: Options, w: World, run: seq<Event>, k: nat)
    requires Inv(w) && Possible(o, w, run) && NoRestore(run) && k < |run|
    ensures var u := After(o, w, run[..k]);
      && Inv(u) && Enabled(u, run[k]) && !IsRestore(run[k])
      && After(o, w, run[..k + 1]) == Apply(o, u, run[k])
    decreases k
  {
    hide Inv, Apply, Enabled;
    assert !IsRestore(run[0]);
    if k == 0 {
      assert run[..0] == [] && run[..1] == [run[0]] && [run[0]][1..] == [];
      assert After(o, w, [run[0]]) == After(o, Apply(o, w, run[0]), []);
    } else {
      StepKeepsInv(o, w, run[0]);
      StepOfRun(o, Apply(o, w, run[0]), run[1..], k - 1);
      assert run[..k][0] == run[0] && run[..k][1..] == run[1..][..k - 1];
      assert run[..k + 1][0] == run[0] && run[..k + 1][1..] == run[1..][..k];
    }
  }

  /** Every step of every run that starts with nothing and contains no restore is sound. */
  lemma EveryStepIsSound(o: Options, w: World, run: seq<Event>, k: nat)
    requires Initial(w) && Possible(o, w, run) && NoRestore(run) && k < |run|
    ensures var u := After(o, w, run[..k]);
            SoundStep(o, u, run[k]) && After(o, w, run[..k + 1]) == Apply(o, u, run[k])
  {
    hide SoundStep, Possible, After, Inv;
    InitialInv(w);
    StepOfRun(o, w, run, k);
    StepIsSound(o, After(o, w, run[..k]), run[k]);
  }
}
