/** The invariant, over all runs; a part of it holds through restores as well. */
module Safety {
  import opened Base
  import opened Spoke
  import opened Conditions
  import opened ImageBuild
  import opened Hub
  import opened DataImages
  import opened MainReconciler
  import opened Monitor
  import opened MainEffects
  import opened MonitorEffects
  import opened Webhook
  import opened System

  // --------------------------------------------------------- the invariant

  /** The progress conditions before the monitor has written them. */
  predicate NotYetWatched(list: seq<Condition>) {
    || (StatusOf(list, Completed) == None && StatusOf(list, Stopped) == None && StatusOf(list, Failed) == None)
    || Shows(list, Unknown, Unknown, Unknown)
  }

  /** The four combinations that occur once the conditions have been initialised, plus none at all. */
  predicate LegalProgress(list: seq<Condition>) {
    NotYetWatched(list) || ShowsInProgress(list) || ShowsTimedOut(list) || ShowsInstalled(list)
  }

  /** The status fits itself and the specification. */
  predicate StatusOk(i: Install) {
    && Validate(i.spec)
    && Distinct(i.status.conditions)
    && LegalProgress(i.status.conditions)
    && (i.status.bootTime.Some? <==> i.status.host.Some?)
    && (i.status.host.None? ==> NotYetWatched(i.status.conditions))
    && (i.status.host.Some? ==> i.status.host == i.spec.host && AllReported(i.status.conditions))
    && (SaysMet(i.status.conditions) ==> i.status.bootTime.Some?)
    && (ShowsInstalled(i.status.conditions) ==> i.status.host.Some?)
  }

  /** What restores cannot break, as long as they bring back a fitting status. */
  predicate Sane(w: World) {
    && (w.install.Some? ==> w.install.value.uid in w.uids && StatusOk(w.install.value))
    && w.dirs.Keys <= w.uids
  }

  /** A completed installation has no data image. */
  predicate ImageGoneWhenInstalled(w: World) {
    w.install.Some? && ShowsInstalled(Stored(w)) && w.install.value.status.host.Some? ==>
      w.install.value.status.host.value !in w.images
  }

  predicate Inv(w: World) {
    Sane(w) && ImageGoneWhenInstalled(w)
  }

  // ------------------------------------------------------ the main controller

  lemma ActiveConditions(o: Options, w: World, v: World)
    requires Sane(w) && ActiveStep(o, w, v) && !InstallationCompleted(w.install.value)
    ensures var b := Stored(v);
      && LegalProgress(b)
      && (w.install.value.status.host.None? ==> NotYetWatched(b))
      && (w.install.value.status.host.Some? ==> AllReported(b))
      && !ShowsInstalled(b)
  {
    hide ReadyToBoot, Core, ImagesStep, Validate;
  }

  lemma ActiveKeepsSane(o: Options, w: World, v: World)
    requires Sane(w) && ActiveStep(o, w, v) && !InstallationCompleted(w.install.value) && Distinct(Stored(v))
    ensures Inv(v)
  {
    hide ReadyToBoot, Find, SameProgress, Filled, StillReported, LegalProgress, NotYetWatched, ShowsInstalled,
         SaysMet, AllReported;
    ActiveConditions(o, w, v);
    CoreFields(w.install.value, v.install.value);
    ValidateIgnoresMetadata(w.install.value.spec, v.install.value.spec);
  }

  lemma ValidateIgnoresMetadata(a: Spec, b: Spec)
    requires UserSpec(a) == UserSpec(b)
    ensures Validate(a) <==> Validate(b)
  {
  }

  /** Deletion and clean-up only ever remove images and files. */
  predicate RemovalStep(w: World, v: World) {
    && v == w.(install := v.install, hosts := v.hosts, images := v.images, dirs := v.dirs)
    && ImagesShrink(w.images, v.images)
    && v.dirs.Keys <= w.dirs.Keys + (if w.install.Some? then {w.install.value.uid} else {})
  }

  lemma ReleaseEffect(w: World, f: MainFaults)
    requires w.install.Some?
    ensures var v := Release(w, f).w;
      && v == w.(install := v.install, hosts := v.hosts, images := v.images)
      && ImagesShrink(w.images, v.images)
      && (v.install == w.install || v.install == DropFinalizer(w).install)
  {
    hide RemoveNamedImage, ImagesShrink;
    NamedRemovalShrinks(w, f.imageRemoval);
  }

  lemma NamedRemovalShrinks(w: World, f: RemovalFaults)
    requires w.install.Some?
    ensures ImagesShrink(w.images, RemoveNamedImage(w, f).w.images)
  {
    hide RemoveDataImage;
  }

  lemma FinalizeEffect(w: World, f: MainFaults)
    requires w.install.Some?
    ensures var v := Finalize(w, f).w;
      && RemovalStep(w, v)
      && (v.install == w.install || v.install == DropFinalizer(w).install)
  {
    hide Release, AfterRemoval;
    ReleaseEffect(w.(dirs := w.dirs - {w.install.value.uid}), f);
  }

  lemma PostCleanupEffect(w: World, f: MainFaults)
    requires w.install.Some?
    ensures var v := PostCleanup(w, f).w; RemovalStep(w, v) && v.install == w.install
  {
    hide RemoveDataImage;
  }

  lemma RemovalKeepsSane(w: World, v: World)
    requires Sane(w) && RemovalStep(w, v)
    requires v.install.Some? ==>
               w.install.Some? && v.install.value == w.install.value.(finalizer := v.install.value.finalizer)
    ensures Sane(v) && (Inv(w) ==> Inv(v))
  {
    hide Find, LegalProgress, NotYetWatched, ShowsInstalled, SaysMet, AllReported, Validate;
  }

  lemma FinalizeKeepsSane(w: World, f: MainFaults)
    requires Sane(w) && w.install.Some?
    ensures Sane(Finalize(w, f).w) && (Inv(w) ==> Inv(Finalize(w, f).w))
  {
    hide Finalize, StatusOk, ImageGoneWhenInstalled, ImagesShrink;
    FinalizeEffect(w, f);
    RemovalKeepsSane(w, Finalize(w, f).w);
  }

  lemma FinalizerKeepsSane(w: World)
    requires Sane(w) && w.install.Some?
    ensures var v := w.(install := Some(w.install.value.(finalizer := true)));
            Sane(v) && (Inv(w) ==> Inv(v))
  {
    hide StatusOk, ImageGoneWhenInstalled;
    var v := w.(install := Some(w.install.value.(finalizer := true)));
    assert RemovalStep(w, v);
    RemovalKeepsSane(w, v);
  }

  lemma ActiveOrCleanupKeepsSane(o: Options, w: World, f: MainFaults)
    requires Sane(w) && w.install.Some?
    ensures Sane(Active(o, w, f).w) && (Inv(w) ==> Inv(Active(o, w, f).w))
  {
    hide Active, PostCleanup, StatusOk, ImageGoneWhenInstalled, ActiveStep, ImagesShrink, Find;
    if InstallationCompleted(w.install.value) {
      CompletedIsCleanedUp(o, w, f);
      PostCleanupEffect(w, f);
      RemovalKeepsSane(w, PostCleanup(w, f).w);
    } else {
      ActiveEffect(o, w, f);
      SaneDistinct(w);
      ActiveDistinct(o, w, f);
      ActiveKeepsSane(o, w, Active(o, w, f).w);
    }
  }

  lemma MainKeepsSane(o: Options, w: World, f: MainFaults)
    requires Sane(w)
    ensures Sane(MainReconcile(o, w, f).w) && (Inv(w) ==> Inv(MainReconcile(o, w, f).w))
  {
    hide Finalize, Active, Sane, ImageGoneWhenInstalled;
    if w.install.Some? {
      FinalizeKeepsSane(w, f);
      FinalizerKeepsSane(w);
      ActiveOrCleanupKeepsSane(o, w, f);
    }
  }

  lemma MainKeepsInv(o: Options, w: World, f: MainFaults)
    requires Inv(w)
    ensures Inv(MainReconcile(o, w, f).w)
  {
    hide MainReconcile;
    MainKeepsSane(o, w, f);
  }

  lemma SaneDistinct(w: World)
    requires Sane(w) && w.install.Some?
    ensures Distinct(Stored(w))
  {
  }

  lemma CompletedIsCleanedUp(o: Options, w: World, f: MainFaults)
    requires w.install.Some? && InstallationCompleted(w.install.value)
    ensures Active(o, w, f) == PostCleanup(w, f)
  {
    hide PostCleanup, Repair, AfterRestoreGate;
  }

  // ----------------------------------------------- monitor and surroundings

  lemma MonitorStepKeepsSane(o: Options, w: World, v: World, installed: bool)
    requires Sane(w) && w.install.Some? && MonitorStep(o, w, v, installed) && Distinct(Stored(v))
    ensures Sane(v) && (Inv(w) ==> Inv(v))
  {
    hide Validate, Distinct;
  }

  lemma MonitorKeepsSane(o: Options, w: World, f: MonitorFaults)
    requires Sane(w)
    ensures Sane(MonitorReconcile(o, w, f).w) && (Inv(w) ==> Inv(MonitorReconcile(o, w, f).w))
  {
    hide Sane, ImageGoneWhenInstalled, MonitorStep;
    if w.install.Some? {
      hide MonitorReconcile;
      MonitorEffect(o, w, f);
      SaneDistinct(w);
      MonitorDistinct(o, w, f);
      MonitorStepKeepsSane(o, w, MonitorReconcile(o, w, f).w, IsInstalled(f.spoke));
    }
  }

  lemma MonitorKeepsInv(o: Options, w: World, f: MonitorFaults)
    requires Inv(w)
    ensures Inv(MonitorReconcile(o, w, f).w)
  {
    hide MonitorReconcile;
    MonitorKeepsSane(o, w, f);
  }

  /** A restored status fits itself and the restored specification. */
  predicate FittingRestore(w: World, e: Event) {
    e.RestoreStatus? && w.install.Some? ==> StatusOk(w.install.value.(status := e.status))
  }

  lemma EnvironmentKeepsSane(o: Options, w: World, e: Event)
    requires Sane(w) && Enabled(w, e) && FittingRestore(w, e) && !e.Main? && !e.Watch?
    ensures Sane(Apply(o, w, e)) && (Inv(w) && !IsRestore(e) ==> Inv(Apply(o, w, e)))
  {
    hide NotYetWatched, LegalProgress, SaysMet, ShowsInstalled, AllReported, Distinct, Validate, MainReconcile,
         MonitorReconcile, BeingRestored;
    NothingReported();
    if e.EditSpec? {
      assert UserSpec(w.install.value.spec) == UserSpec(e.spec) ==> w.install.value.spec.host == e.spec.host;
    }
  }

  lemma NothingReported()
    ensures NotYetWatched([]) && LegalProgress([]) && !SaysMet([]) && !ShowsInstalled([]) && Distinct([])
  {
  }

  lemma StepKeepsSane(o: Options, w: World, e: Event)
    requires Sane(w) && Enabled(w, e) && FittingRestore(w, e)
    ensures Sane(Apply(o, w, e)) && (Inv(w) && !IsRestore(e) ==> Inv(Apply(o, w, e)))
  {
    hide Sane, ImageGoneWhenInstalled, MainReconcile, MonitorReconcile, FittingRestore;
    match e {
      case Main(f) => MainKeepsSane(o, w, f);
      case Watch(f) => MonitorKeepsSane(o, w, f);
      case _ => EnvironmentKeepsSane(o, w, e);
    }
  }

  lemma StepKeepsInv(o: Options, w: World, e: Event)
    requires Inv(w) && Enabled(w, e) && !IsRestore(e)
    ensures Inv(Apply(o, w, e))
  {
    hide Sane, Apply, Enabled;
    StepKeepsSane(o, w, e);
  }

  /** Every state of every run without a restore satisfies the invariant. */
  lemma {:induction false} RunKeepsInv(o: Options, w: World, run: seq<Event>)
    requires Inv(w) && Possible(o, w, run) && NoRestore(run)
    ensures Inv(After(o, w, run))
    decreases |run|
  {
    hide Inv, Apply, Enabled;
    if run != [] {
      assert !IsRestore(run[0]);
      StepKeepsInv(o, w, run[0]);
      RunKeepsInv(o, Apply(o, w, run[0]), run[1..]);
    }
  }

  /** A possible run in which every restored status fits. */
  predicate FittingRun(o: Options, w: World, run: seq<Event>)
    decreases |run|
  {
    run == [] || (Enabled(w, run[0]) && FittingRestore(w, run[0]) && FittingRun(o, Apply(o, w, run[0]), run[1..]))
  }

  /** Every state of every run is sane, restores included, as long as they bring back fitting statuses. */
  lemma {:induction false} RunKeepsSane(o: Options, w: World, run: seq<Event>)
    requires Sane(w) && FittingRun(o, w, run)
    ensures Sane(After(o, w, run))
    decreases |run|
  {
    hide Sane, Apply, Enabled, FittingRestore;
    if run != [] {
      StepKeepsSane(o, w, run[0]);
      RunKeepsSane(o, Apply(o, w, run[0]), run[1..]);
    }
  }
}
