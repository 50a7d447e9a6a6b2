/** Runs in which installations are restored from a backup. */
module Restore {
  import opened Base
  import opened Conditions
  import opened ImageBuild
  import opened Hub
  import opened DataImages
  import opened MainReconciler
  import opened Monitor
  import opened MainEffects
  import opened MonitorEffects
  import opened Webhook
  import opened System
  import opened Safety
  import opened Guarantees

  // ---------------------------------------------- waiting for the status

  /** If there is an installation, it is a restored one whose status has not come back. */
  predicate AwaitsStatus(w: World) {
    w.install.Some? ==> FreshFromBackup(w.install.value)
  }

  /** A reconcile of a restored installation without status adds the finalizer at most, unless it is being deleted. */
  lemma RestoredIsLeftAlone(o: Options, w: World, f: MainFaults)
    requires w.install.Some? && w.install.value.restoreLabel && w.install.value.status == EMPTY_STATUS
    requires !w.install.value.deleting
    ensures var v := MainReconcile(o, w, f).w;
            v == w || v == w.(install := Some(w.install.value.(finalizer := true)))
  {
    hide AfterRestoreGate, PostCleanup, Finalize;
  }

  lemma RestoredIsNotWatched(o: Options, w: World, f: MonitorFaults)
    requires AwaitsStatus(w)
    ensures MonitorReconcile(o, w, f).w == w
  {
  }

  /** The status stays away, and no other object takes the place of this one. */
  predicate StaysAway(e: Event) {
    !e.RestoreStatus? && !e.Create? && !e.RestoreObject?
  }

  datatype Annotations = Annotations(restoreStatus: bool, postCleanup: bool)

  function AnnotationsOf(i: Install): Annotations {
    Annotations(i.restoreStatus, i.postCleanup)
  }

  /** What users make of the annotations in the course of a run. */
  function EditedBy(a: Annotations, run: seq<Event>): Annotations
    decreases |run|
  {
    if run == [] then a
    else EditedBy(if run[0].EditAnnotations? then Annotations(run[0].restoreStatus, run[0].postCleanup) else a,
                  run[1..])
  }

  /** Status, stored identity and images are as they were, or have been taken away. */
  predicate Untouched(w: World, v: World) {
    && AwaitsStatus(v)
    && (v.install.Some? ==>
          && w.install.Some? && v.install.value.uid == w.install.value.uid
          && v.install.value.status == w.install.value.status)
    && v.secrets == w.secrets
    && v.images.Keys <= w.images.Keys
    && NoNewImageFile(w.dirs, v.dirs)
  }

  /** Untouched, and the annotations are these. */
  predicate UntouchedBut(w: World, v: World, a: Annotations) {
    Untouched(w, v) && (v.install.Some? ==> AnnotationsOf(v.install.value) == a)
  }

  lemma NoFileIsNew(dirs: map<string, WorkDir>, lost: set<string>)
    ensures NoNewImageFile(dirs, dirs) && NoNewImageFile(dirs, dirs - lost)
  {
  }

  lemma DeletedWaiting(w: World, f: MainFaults)
    requires AwaitsStatus(w) && w.install.Some?
    ensures UntouchedBut(w, Finalize(w, f).w, AnnotationsOf(w.install.value))
  {
    hide Finalize, NoNewImageFile;
    FinalizeEffect(w, f);
    FinalizeCreatesNothing(w, f);
  }

  lemma FinalizerWaiting(w: World, finalizer: bool)
    requires AwaitsStatus(w) && w.install.Some?
    ensures UntouchedBut(w, w, AnnotationsOf(w.install.value))
    ensures UntouchedBut(w, w.(install := Some(w.install.value.(finalizer := finalizer))),
                         AnnotationsOf(w.install.value))
  {
    hide NoNewImageFile;
    NoFileIsNew(w.dirs, {});
  }

  lemma WaitingMain(o: Options, w: World, f: MainFaults)
    requires AwaitsStatus(w) && w.install.Some?
    ensures UntouchedBut(w, MainReconcile(o, w, f).w, AnnotationsOf(w.install.value))
  {
    hide UntouchedBut, Finalize, Active;
    FinalizerWaiting(w, true);
    if w.install.value.deleting {
      DeletedWaiting(w, f);
    } else {
      hide MainReconcile;
      RestoredIsLeftAlone(o, w, f);
    }
  }

  /** Users change the object, or it disappears. */
  lemma EditWaiting(w: World, v: World)
    requires AwaitsStatus(w) && v == w.(install := v.install)
    requires v.install.Some? ==>
               && w.install.Some? && v.install.value.uid == w.install.value.uid
               && v.install.value.status == w.install.value.status
               && v.install.value.restoreLabel == w.install.value.restoreLabel
    ensures Untouched(w, v)
  {
    hide NoNewImageFile;
    NoFileIsNew(w.dirs, {});
  }

  /** Something else changes, and nothing appears. */
  lemma ChangeWaiting(w: World, v: World)
    requires AwaitsStatus(w) && v.install == w.install && v.secrets == w.secrets && v.images.Keys <= w.images.Keys
    requires NoNewImageFile(w.dirs, v.dirs)
    ensures Untouched(w, v)
  {
    hide NoNewImageFile;
  }

  lemma FewerImages(before: map<HostRef, DataImage>, after: map<HostRef, DataImage>)
    requires ImagesOnlyRemoved(before, after)
    ensures after.Keys <= before.Keys
  {
  }

  lemma SurroundingsEdit(o: Options, w: World, e: Event)
    requires Enabled(w, e) && StaysAway(e) && !e.Main? && !e.Watch?
    ensures var v := Apply(o, w, e);
      v.install.Some? ==>
        && w.install.Some?
        && AnnotationsOf(v.install.value) == EditedBy(AnnotationsOf(w.install.value), [e])
  {
    hide MainReconcile, MonitorReconcile, ValidateUpdate, ImagesOnlyRemoved;
    assert [e][1..] == [];
  }

  predicate ChangesObject(e: Event) {
    e.EditSpec? || e.EditAnnotations? || e.RequestDeletion? || e.ReleaseOthers?
  }

  lemma EditsWaiting(o: Options, w: World, e: Event)
    requires AwaitsStatus(w) && ChangesObject(e)
    ensures Untouched(w, Apply(o, w, e))
  {
    hide Untouched, AwaitsStatus, MainReconcile, MonitorReconcile;
    match e {
      case EditSpec(s) =>
        if w.install.Some? {
          EditWaiting(w, w.(install := Some(w.install.value.(spec := s))));
        } else {
          EditWaiting(w, w);
        }
      case EditAnnotations(t, r, p) =>
        if w.install.Some? {
          EditWaiting(w, w.(install := Some(w.install.value.(timeout := t, restoreStatus := r, postCleanup := p))));
        } else {
          EditWaiting(w, w);
        }
      case RequestDeletion =>
        if w.install.Some? {
          EditWaiting(w, w.(install := Settle(w.install.value.(deleting := true))));
        } else {
          EditWaiting(w, w);
        }
      case ReleaseOthers =>
        if w.install.Some? {
          EditWaiting(w, w.(install := Settle(w.install.value.(otherFinalizers := false))));
        } else {
          EditWaiting(w, w);
        }
    }
  }

  lemma ChangesWaiting(o: Options, w: World, e: Event)
    requires AwaitsStatus(w) && Enabled(w, e) && StaysAway(e) && !e.Main? && !e.Watch? && !ChangesObject(e)
    ensures Untouched(w, Apply(o, w, e))
  {
    hide NoNewImageFile, Untouched, AwaitsStatus, ImagesOnlyRemoved, MainReconcile, MonitorReconcile;
    NoFileIsNew(w.dirs, if e.LoseDirs? then e.lost else {});
    if e.ChangeImages? {
      FewerImages(w.images, e.images);
    }
    ChangeWaiting(w, Apply(o, w, e));
  }

  /** What users and surroundings do while the status is away. */
  lemma SurroundingsWaiting(o: Options, w: World, e: Event)
    requires AwaitsStatus(w) && Enabled(w, e) && StaysAway(e) && !e.Main? && !e.Watch?
    ensures Untouched(w, Apply(o, w, e))
  {
    hide Apply, Enabled, AwaitsStatus, Untouched;
    if ChangesObject(e) {
      EditsWaiting(o, w, e);
    } else {
      ChangesWaiting(o, w, e);
    }
  }

  lemma WaitingStep(o: Options, w: World, e: Event)
    requires AwaitsStatus(w) && Enabled(w, e) && StaysAway(e)
    ensures var v := Apply(o, w, e);
      && Untouched(w, v)
      && (v.install.Some? ==> AnnotationsOf(v.install.value) == EditedBy(AnnotationsOf(w.install.value), [e]))
  {
    hide MainReconcile, MonitorReconcile, AwaitsStatus, Enabled, Untouched;
    assert [e][1..] == [];
    NoFileIsNew(w.dirs, {});
    match e {
      case Main(f) =>
        if w.install.Some? {
          WaitingMain(o, w, f);
        } else {
          NobodyIsReconciled(o, w, f);
          ChangeWaiting(w, w);
        }
      case Watch(f) =>
        RestoredIsNotWatched(o, w, f);
        if w.install.Some? {
          FinalizerWaiting(w, true);
        } else {
          ChangeWaiting(w, w);
        }
      case _ =>
        SurroundingsWaiting(o, w, e);
        SurroundingsEdit(o, w, e);
    }
  }

  lemma NobodyIsReconciled(o: Options, w: World, f: MainFaults)
    requires w.install.None?
    ensures MainReconcile(o, w, f).w == w
  {
  }

  /**
   Until its status returns, conditions and secrets of a restored installation do not change, and no image file and no
   data image appears, however often it is reconciled and whatever else happens around it, its deletion included. Its
   annotations change only when users edit them.
   */
  lemma {:induction false} NothingHappensBeforeStatus(o: Options, w: World, run: seq<Event>)
    requires AwaitsStatus(w) && Possible(o, w, run) && forall e :: e in run ==> StaysAway(e)
    ensures var v := After(o, w, run);
      && Untouched(w, v)
      && (v.install.Some? ==> AnnotationsOf(v.install.value) == EditedBy(AnnotationsOf(w.install.value), run))
    decreases |run|
  {
    hide Apply, Enabled, Untouched, AwaitsStatus;
    if run == [] {
      UntouchedReflexive(w);
    } else {
      var u, v := Apply(o, w, run[0]), After(o, w, run);
      assert StaysAway(run[0]);
      WaitingStep(o, w, run[0]);
      UntouchedAwaits(w, u);
      NothingHappensBeforeStatus(o, u, run[1..]);
      UntouchedTransitive(w, u, v);
      UntouchedAwaits(u, v);
      assert [run[0]][1..] == [];
    }
  }

  /**
   The same from the moment of the restore on: until the status returns, an object that a restore has brought back
   has no status, no secret is written, and no image file and no data image appears.
   */
  lemma RestoredWaits(o: Options, w: World, i: Install, run: seq<Event>)
    requires Enabled(w, RestoreObject(i))
    requires var u := Apply(o, w, RestoreObject(i));
             Possible(o, u, run) && forall e :: e in run ==> StaysAway(e)
    ensures var v := After(o, Apply(o, w, RestoreObject(i)), run);
      && (v.install.Some? ==>
            && v.install.value.uid == i.uid && v.install.value.restoreLabel && v.install.value.status == EMPTY_STATUS
            && AnnotationsOf(v.install.value) == EditedBy(AnnotationsOf(i), run))
      && v.secrets == w.secrets
      && v.images.Keys <= w.images.Keys
      && NoNewImageFile(w.dirs, v.dirs)
  {
    hide After, Possible, Validate, NoNewImageFile;
    NothingHappensBeforeStatus(o, Apply(o, w, RestoreObject(i)), run);
  }

  /** Besides, nobody deletes the installation, and nobody else takes images or files away. */
  predicate NothingTaken(e: Event) {
    StaysAway(e) && !e.RequestDeletion? && !e.ChangeImages? && !e.LoseDirs?
  }

  /** A restored installation that nobody deletes, with these images and files. */
  predicate Keeps(w: World, images: map<HostRef, DataImage>, dirs: map<string, WorkDir>) {
    AwaitsStatus(w) && w.install.Some? && !w.install.value.deleting && w.images == images && w.dirs == dirs
  }

  lemma KeepingStep(o: Options, w: World, e: Event)
    requires Keeps(w, w.images, w.dirs) && Enabled(w, e) && NothingTaken(e)
    ensures Keeps(Apply(o, w, e), w.images, w.dirs)
  {
    hide MainReconcile, MonitorReconcile, ValidateUpdate, ValidateCreate;
    match e {
      case Main(f) => RestoredIsLeftAlone(o, w, f);
      case Watch(f) => RestoredIsNotWatched(o, w, f);
      case _ =>
    }
  }

  /** Only a deletion makes the controllers take images or files away: without one, all of them are still there. */
  lemma {:induction false} NothingIsTakenBeforeStatus(o: Options, w: World, run: seq<Event>)
    requires Keeps(w, w.images, w.dirs) && Possible(o, w, run) && forall e :: e in run ==> NothingTaken(e)
    ensures Keeps(After(o, w, run), w.images, w.dirs)
    decreases |run|
  {
    hide Apply, Enabled, AwaitsStatus;
    if run != [] {
      assert NothingTaken(run[0]);
      KeepingStep(o, w, run[0]);
      NothingIsTakenBeforeStatus(o, Apply(o, w, run[0]), run[1..]);
    }
  }

  lemma UntouchedReflexive(w: World)
    requires AwaitsStatus(w)
    ensures Untouched(w, w)
  {
  }

  lemma UntouchedAwaits(w: World, v: World)
    requires Untouched(w, v)
    ensures AwaitsStatus(v) && (v.install.Some? ==> w.install.Some?)
  {
  }

  lemma UntouchedTransitive(u: World, v: World, w: World)
    requires Untouched(u, v) && Untouched(v, w)
    ensures Untouched(u, w)
  {
    hide AwaitsStatus;
  }

  // ------------------------------------------------------ marked images

  lemma MainNewImage(o: Options, w: World, f: MainFaults, h: HostRef)
    requires var v := MainReconcile(o, w, f).w; h in v.images && h !in w.images
    ensures var v := MainReconcile(o, w, f).w;
      && v.install.Some? && v.install.value.postCleanup
      && v.install.value.spec.host == Some(h)
      && v.images[h] == DataImage(ImageUrl(v.install.value.namespace, v.install.value.uid), v.now, false, false)
  {
    hide Finalize, Active, PostCleanup, Find, ReadyToBoot;
    FinalizeEffect(w, f);
    if InstallationCompleted(w.install.value) {
      CompletedIsCleanedUp(o, w, f);
      PostCleanupEffect(w, f);
    } else {
      ActiveEffect(o, w, f);
      CoreFields(w.install.value, Active(o, w, f).w.install.value);
    }
  }

  /**
   In every step, restores included: a data image appears only for the host of an installation that carries the
   post-cleanup annotation in storage, and it serves that installation's own image.
   */
  lemma NewImageIsMarked(o: Options, w: World, e: Event, h: HostRef)
    requires Enabled(w, e)
    requires var v := Apply(o, w, e); h in v.images && h !in w.images
    ensures var v := Apply(o, w, e);
      && e.Main?
      && v.install.Some? && v.install.value.postCleanup
      && v.install.value.spec.host == Some(h)
      && v.images[h].url == ImageUrl(v.install.value.namespace, v.install.value.uid)
      && !v.images[h].terminating && v.images[h].created == w.now
  {
    hide MainReconcile, MonitorReconcile, Validate, Find;
    match e {
      case Main(f) =>
        MainNewImage(o, w, f, h);
        MainKeepsTime(o, w, f);
      case Watch(g) =>
        if w.install.Some? {
          MonitorEffect(o, w, g);
        } else {
          MonitorIdle(o, w, g);
        }
      case _ =>
    }
  }

  lemma MainKeepsTime(o: Options, w: World, f: MainFaults)
    ensures MainReconcile(o, w, f).w.now == w.now
  {
    hide Finalize, Active, PostCleanup, Find;
    if w.install.Some? {
      FinalizeEffect(w, f);
      if InstallationCompleted(w.install.value) {
        CompletedIsCleanedUp(o, w, f);
        PostCleanupEffect(w, f);
      } else {
        ActiveEffect(o, w, f);
      }
    }
  }

  /**
   Whatever a restore brought back: a reconcile of a completed, annotated installation that ends without an
   error and without asking to come back leaves no data image for its host.
   */
  lemma CleanUpIsThorough(o: Options, w: World, f: MainFaults)
    requires w.install.Some? && !w.install.value.deleting && w.install.value.finalizer
    requires InstallationCompleted(w.install.value) && w.install.value.postCleanup && w.install.value.spec.host.Some?
    requires var out := MainReconcile(o, w, f); !out.err && out.requeue == NoRequeue
    ensures w.install.value.spec.host.value !in MainReconcile(o, w, f).w.images
    ensures MainReconcile(o, w, f).w.install == w.install
  {
    hide Active, RemoveDataImage, Find;
    CompletedIsCleanedUp(o, w, f);
  }
}
