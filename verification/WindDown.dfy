/** How an installation ends: undisturbed calls that delete it, and that clean up after its completion. */
module WindDown {
  import opened Base
  import opened Conditions
  import opened ImageBuild
  import opened Hub
  import opened DataImages
  import opened MainReconciler
  import opened MainEffects
  import opened Monitor
  import opened MonitorEffects
  import opened Webhook
  import opened System
  import opened Safety
  import opened Progress

  // ------------------------------------------------------ the data image

  /** The images once the deletion of one has been requested: it is gone at once, or on its way out. */
  function Without(images: map<HostRef, DataImage>, ref: HostRef, gone: bool): map<HostRef, DataImage> {
    if ref !in images then images
    else if gone then images - {ref}
    else images[ref := images[ref].(terminating := true)]
  }

  /** A host that exists is asked to reboot, so that its image can be let go. */
  function AskedToReboot(hosts: map<HostRef, Host>, ref: HostRef): map<HostRef, Host> {
    if ref in hosts then hosts[ref := hosts[ref].(reboot := true)] else hosts
  }

  /** Both the image and the host that has to let it go are there. */
  predicate HeldByHost(w: World, host: Option<HostRef>) {
    host.Some? && host.value in w.images && host.value in w.hosts
  }

  lemma RemovalDoes(w: World, ref: HostRef, f: RemovalFaults)
    requires SmoothRemoval(f)
    ensures var r := RemoveDataImage(w, ref, f);
      && !r.err && (r.image.Some? <==> HeldByHost(w, Some(ref)))
      && r.w.images == Without(w.images, ref, f.gone)
      && r.w.hosts == if ref in w.images then AskedToReboot(w.hosts, ref) else w.hosts
  {
    if ref in w.hosts && w.hosts[ref].reboot {
      assert w.hosts[ref := w.hosts[ref].(reboot := true)] == w.hosts;
    }
  }

  /** An operation of the removal that is due fails. */
  predicate RemovalFails(w: World, ref: HostRef, f: RemovalFaults) {
    || f.getImage
    || (&& ref in w.images
        && (|| f.deleteImage != Fine || f.getHost
            || (ref in w.hosts && !w.hosts[ref].reboot && f.patchHost != Fine)))
  }

  lemma RemovalFailsIff(w: World, ref: HostRef, f: RemovalFaults)
    ensures var r := RemoveDataImage(w, ref, f);
      && (r.err <==> RemovalFails(w, ref, f))
      && (!r.err ==>
            && (r.image.Some? <==> HeldByHost(w, Some(ref)))
            && r.w.images == Without(w.images, ref, f.gone))
  {
  }

  // ------------------------------------------------------------- deletion

  /** Nothing on the way out fails. */
  predicate SmoothRelease(f: MainFaults) {
    && !f.getInstall && !f.dirs && !f.lock && !f.busy && f.removal == Removed
    && SmoothRemoval(f.imageRemoval) && f.dropFinalizer == Fine
  }

  /** The object without the finalizer, and gone if that was the last one. */
  function WithoutFinalizer(i: Install): Option<Install> {
    if i.otherFinalizers then Some(i.(finalizer := false)) else None
  }

  /** The world after such a call: the files are gone, and the rest depends on whether a host holds the image. */
  function WoundDown(w: World, gone: bool): World
    requires w.install.Some?
  {
    var i := w.install.value;
    var held := HeldByHost(w, i.spec.host);
    w.(dirs := w.dirs - {i.uid},
       images := if i.spec.host.Some? then Without(w.images, i.spec.host.value, gone) else w.images,
       hosts := if held then AskedToReboot(w.hosts, i.spec.host.value) else w.hosts,
       install := if held || !i.finalizer then w.install else WithoutFinalizer(i))
  }

  /**
   An undisturbed call on an installation that is being deleted removes its files, and takes its finalizer away if and
   only if no data image of the named host has to be let go by that host. Otherwise the image is gone or terminating,
   the host is asked to reboot, and the call asks for a minute.
   */
  lemma ReleasesIff(o: Options, w: World, f: MainFaults)
    requires SmoothRelease(f) && w.install.Some? && w.install.value.deleting
    ensures var out := MainReconcile(o, w, f); var held := HeldByHost(w, w.install.value.spec.host);
      && !out.err && out.report.None?
      && out.w == WoundDown(w, f.imageRemoval.gone)
      && out.requeue == (if held then RequeueAfter(60) else NoRequeue)
      && (w.install.value.finalizer ==> (out.w.install.None? || !out.w.install.value.finalizer <==> !held))
  {
    hide RemoveDataImage, Active;
    if w.install.value.spec.host.Some? {
      RemovalDoes(w.(dirs := w.dirs - {w.install.value.uid}), w.install.value.spec.host.value, f.imageRemoval);
    }
  }

  /**
   Whatever fails: a call on an installation that is being deleted ends with an error if and only if an operation fails
   that is due, namely the directories, their lock, the removal of the files, that of the image, or, once no host holds
   the image, the patch that takes the finalizer away.
   */
  lemma DeletionErrsIff(o: Options, w: World, f: MainFaults)
    requires !f.getInstall && w.install.Some? && w.install.value.deleting
    ensures var out := MainReconcile(o, w, f); var i := w.install.value;
      && (out.err <==>
            || f.dirs || f.lock
            || (&& !f.busy
                && (|| f.removal.Kept?
                    || (i.spec.host.Some? && RemovalFails(w, i.spec.host.value, f.imageRemoval))
                    || (!HeldByHost(w, i.spec.host) && i.finalizer && f.dropFinalizer != Fine))))
      && (out.err ==> out.requeue == NoRequeue)
  {
    hide RemoveDataImage, Active, RemovalFails, AfterRemoval;
    var u := w.(dirs := w.dirs - {w.install.value.uid});
    if w.install.value.spec.host.Some? {
      var ref := w.install.value.spec.host.value;
      RemovalFailsIff(u, ref, f.imageRemoval);
      SameRemoval(w, u, ref, f.imageRemoval);
    }
  }

  lemma SameRemoval(w: World, v: World, ref: HostRef, f: RemovalFaults)
    requires v.images == w.images && v.hosts == w.hosts
    ensures RemovalFails(v, ref, f) <==> RemovalFails(w, ref, f)
  {
  }

  /** While another process holds the lock of the directory, the call comes back in five seconds. */
  lemma BusyDeletionWaits(o: Options, w: World, f: MainFaults)
    requires !f.getInstall && !f.dirs && !f.lock && f.busy && w.install.Some? && w.install.value.deleting
    ensures var out := MainReconcile(o, w, f);
      && !out.err && out.requeue == RequeueAfter(5) && out.report.None?
      && out.w == w.(dirs := w.dirs[w.install.value.uid := Present(DirOf(w, w.install.value.uid))])
  {
  }

  /** Two undisturbed calls, with the data image gone in between, release the object and leave nothing of it behind. */
  lemma TwoCallsRelease(o: Options, w: World, f: MainFaults, g: MainFaults)
    requires SmoothRelease(f) && SmoothRelease(g)
    requires w.install.Some? && w.install.value.deleting && w.install.value.finalizer
    requires HeldByHost(w, w.install.value.spec.host)
    ensures var ref := w.install.value.spec.host.value;
            var u := ImageGone(MainReconcile(o, w, f).w, ref);
            var out := MainReconcile(o, u, g);
      && !out.err && out.requeue == NoRequeue
      && out.w.install == WithoutFinalizer(w.install.value)
      && w.install.value.uid !in out.w.dirs && ref !in out.w.images
      && out.w.hosts == AskedToReboot(w.hosts, ref)
  {
    hide MainReconcile, SmoothRelease;
    ReleasesIff(o, w, f);
    ReleasesIff(o, ImageGone(MainReconcile(o, w, f).w, w.install.value.spec.host.value), g);
  }

  lemma MainDropsLast(o: Options, w: World, f: MainFaults)
    requires w.install.Some? && MainReconcile(o, w, f).w.install.None?
    ensures w.install.value.deleting && !w.install.value.otherFinalizers
  {
    hide Finalize, Active, PostCleanup, Find, RemovalStep, ActiveStep;
    if w.install.value.deleting {
      FinalizeEffect(w, f);
    } else {
      ActiveKeepsObject(o, w, f);
    }
  }

  lemma ActiveKeepsObject(o: Options, w: World, f: MainFaults)
    requires w.install.Some?
    ensures Active(o, w, f).w.install.Some?
  {
    hide Active, PostCleanup, Find, ImagesShrink;
    if InstallationCompleted(w.install.value) {
      CompletedIsCleanedUp(o, w, f);
      PostCleanupEffect(w, f);
    } else {
      ActiveEffect(o, w, f);
    }
  }

  /**
   An object disappears only when it is being deleted and its last finalizer goes: this operator's in a call of the main
   controller, another one released by others, or none that was there when the deletion is requested.
   */
  lemma ObjectGoesLast(o: Options, w: World, e: Event)
    requires Enabled(w, e) && w.install.Some?
    ensures var i := w.install.value;
      Apply(o, w, e).install.None? ==>
        || (e.Main? && i.deleting && !i.otherFinalizers)
        || (e.ReleaseOthers? && i.deleting && !i.finalizer)
        || (e.RequestDeletion? && !i.finalizer && !i.otherFinalizers)
  {
    hide MainReconcile, MonitorReconcile, Validate, Find, Recordable, ImagesShrink;
    match e {
      case Main(f) =>
        if MainReconcile(o, w, f).w.install.None? {
          MainDropsLast(o, w, f);
        }
      case Watch(f) => MonitorEffect(o, w, f);
      case _ =>
    }
  }

  // ------------------------------------------------------------- clean-up

  /** Completed, with its finalizer, and not being deleted. */
  predicate Finished(w: World) {
    && w.install.Some? && !w.install.value.deleting && w.install.value.finalizer
    && HasStatus(Stored(w), Completed, True)
  }

  /**
   An undisturbed call on a completed installation does nothing without the post-cleanup annotation or a data image of
   the named host. With both it removes the image, asks the host to reboot, and comes back in a minute unless the image
   is gone at once.
   */
  lemma CleansUpIff(o: Options, w: World, f: MainFaults)
    requires Finished(w) && !f.getInstall && SmoothRemoval(f.imageRemoval) && !f.recheckImage
    ensures var out := MainReconcile(o, w, f); var i := w.install.value;
      && !out.err && out.report.None?
      && (if i.postCleanup && i.spec.host.Some? && i.spec.host.value in w.images
          then && out.w == w.(images := Without(w.images, i.spec.host.value, f.imageRemoval.gone),
                              hosts := AskedToReboot(w.hosts, i.spec.host.value))
               && out.requeue == (if f.imageRemoval.gone then NoRequeue else RequeueAfter(60))
          else out.w == w && out.requeue == NoRequeue)
  {
    hide RemoveDataImage, Find, AfterRestoreGate, Finalize;
    if w.install.value.spec.host.Some? {
      RemovalDoes(w, w.install.value.spec.host.value, f.imageRemoval);
    }
  }

  /** Whatever fails: the clean-up ends with an error if and only if it is due and fails, or cannot be checked. */
  lemma CleanUpErrsIff(o: Options, w: World, f: MainFaults)
    requires Finished(w) && !f.getInstall
    ensures var out := MainReconcile(o, w, f); var i := w.install.value;
      && (out.err <==> && i.postCleanup && i.spec.host.Some?
                       && (RemovalFails(w, i.spec.host.value, f.imageRemoval) || f.recheckImage))
      && (out.err ==> out.requeue == NoRequeue)
  {
    hide RemoveDataImage, RemovalFails, Find, AfterRestoreGate, Finalize;
    if w.install.value.spec.host.Some? {
      RemovalFailsIff(w, w.install.value.spec.host.value, f.imageRemoval);
    }
  }

  /** Two undisturbed calls, with the data image gone in between, end the clean-up. */
  lemma TwoCallsCleanUp(o: Options, w: World, f: MainFaults, g: MainFaults)
    requires Finished(w) && w.install.value.postCleanup && w.install.value.spec.host.Some?
    requires !f.getInstall && SmoothRemoval(f.imageRemoval) && !f.recheckImage
    requires !g.getInstall && SmoothRemoval(g.imageRemoval) && !g.recheckImage
    ensures var ref := w.install.value.spec.host.value;
            var out := MainReconcile(o, ImageGone(MainReconcile(o, w, f).w, ref), g);
            !out.err && out.requeue == NoRequeue && ref !in out.w.images && out.w.install == w.install
  {
    hide MainReconcile, Find;
    CleansUpIff(o, w, f);
    CleansUpIff(o, ImageGone(MainReconcile(o, w, f).w, w.install.value.spec.host.value), g);
  }
}
