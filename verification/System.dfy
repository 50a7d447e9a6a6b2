/**
 The operator and its surroundings as a transition system. One reconcile of either controller is one step;
 what fails inside it is part of the event. The surroundings are the bare metal operator, time, users acting
 through the admission webhook, pod restarts, and restores from a backup.
 */
module System {
  import opened Base
  import opened Hub
  import opened MainReconciler
  import opened Monitor
  import opened Webhook

  datatype Event =
    | Main(main: MainFaults)
    | Watch(watch: MonitorFaults)
    | Tick(seconds: nat)
    | ChangeHosts(hosts: map<HostRef, Host>)
    | ChangeImages(images: map<HostRef, DataImage>)
    | ChangeDeployments(deployments: map<string, ClusterDeployment>)
    | Create(install: Install)
    | EditSpec(spec: Spec)
    | EditAnnotations(timeout: TimeoutAnnotation, restoreStatus: bool, postCleanup: bool)
    | RequestDeletion
    | ReleaseOthers
    | LoseDirs(lost: set<string>)
    | RestoreObject(restored: Install)
    | RestoreStatus(status: Status)

  /** Others delete images or let them go; only this operator creates one. */
  predicate ImagesOnlyRemoved(before: map<HostRef, DataImage>, after: map<HostRef, DataImage>) {
    forall h :: h in after ==>
      && h in before
      && after[h].created == before[h].created
      && after[h].url == before[h].url
      && (before[h].terminating ==> after[h].terminating)
  }

  predicate NewObject(w: World, i: Install) {
    && w.install.None?
    && i.uid !in w.uids
    && !i.deleting && !i.finalizer
    && i.status == EMPTY_STATUS
    && ValidateCreate(i)
  }

  predicate Enabled(w: World, e: Event) {
    match e
    case ChangeImages(images) => ImagesOnlyRemoved(w.images, images)
    case Create(i) => NewObject(w, i) && i.spec.metadata.None? && !i.restoreLabel
    case EditSpec(s) =>
      w.install.Some? && s.metadata == w.install.value.spec.metadata
      && ValidateUpdate(w.install.value, w.install.value.(spec := s))
    case RestoreObject(i) => NewObject(w, i) && i.restoreLabel
    case RestoreStatus(s) => w.install.Some? && FreshFromBackup(w.install.value)
    case _ => true
  }

  /** A deleted object disappears when its last finalizer does. */
  function Settle(i: Install): Option<Install> {
    if i.deleting && !i.finalizer && !i.otherFinalizers then None else Some(i)
  }

  function Apply(o: Options, w: World, e: Event): World {
    match e
    case Main(f) => MainReconcile(o, w, f).w
    case Watch(f) => MonitorReconcile(o, w, f).w
    case Tick(n) => w.(now := w.now + n)
    case ChangeHosts(hosts) => w.(hosts := hosts)
    case ChangeImages(images) => w.(images := images)
    case ChangeDeployments(deployments) => w.(deployments := deployments)
    case Create(i) => w.(install := Some(i), uids := w.uids + {i.uid})
    case RestoreObject(i) => w.(install := Some(i), uids := w.uids + {i.uid})
    case EditSpec(s) => if w.install.None? then w else w.(install := Some(w.install.value.(spec := s)))
    case EditAnnotations(t, r, p) =>
      if w.install.None? then w
      else w.(install := Some(w.install.value.(timeout := t, restoreStatus := r, postCleanup := p)))
    case RequestDeletion =>
      if w.install.None? then w else w.(install := Settle(w.install.value.(deleting := true)))
    case ReleaseOthers =>
      if w.install.None? then w else w.(install := Settle(w.install.value.(otherFinalizers := false)))
    case LoseDirs(lost) => w.(dirs := w.dirs - lost)
    case RestoreStatus(s) => if w.install.None? then w else w.(install := Some(w.install.value.(status := s)))
  }

  // ------------------------------------------------------------------ runs

  predicate Possible(o: Options, w: World, run: seq<Event>)
    decreases |run|
  {
    run == [] || (Enabled(w, run[0]) && Possible(o, Apply(o, w, run[0]), run[1..]))
  }

  function After(o: Options, w: World, run: seq<Event>): World
    decreases |run|
  {
    if run == [] then w else After(o, Apply(o, w, run[0]), run[1..])
  }

  predicate IsRestore(e: Event) {
    e.RestoreObject? || e.RestoreStatus?
  }

  /** No step of the run restores from a backup. */
  predicate NoRestore(run: seq<Event>) {
    forall e :: e in run ==> !IsRestore(e)
  }

  /** Nothing of this operator exists yet. */
  predicate Initial(w: World) {
    w.install.None? && w.images == map[] && w.dirs == map[] && w.uids == {}
  }
}
