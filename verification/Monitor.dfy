/**
 One reconcile of the monitor (controllers/imageclusterinstall_monitor.go): it watches a started installation
 and keeps the Completed, Stopped and Failed conditions.
 */
module Monitor {
  import opened Base
  import opened Spoke
  import opened Conditions
  import opened Credentials
  import opened Hub
  import opened DataImages

  datatype MonitorFaults = MonitorFaults(
    getInstall: bool,
    getHost: bool,
    getImage: bool,
    spokeClient: bool,
    spoke: Spoke,               // what the installed cluster shows, not a fault
    removal: RemovalFaults,
    recheckImage: bool,
    record: WriteFault)

  datatype MonitorEnd = MonitorEnd(w: World, requeue: Requeue, err: bool)

  function Entry(kind: ConditionType, status: ConditionStatus, reason: Reason, m: Message): Condition {
    Condition(kind, status, reason, m, 0, 0)
  }

  const IN_PROGRESS := Text(60)
  const TIMED_OUT := Text(61)
  const SUCCEEDED := Text(62)
  const AWAITING_DELETION := Text(63)
  const AWAITING_POWER := Text(64)

  function Installing(m: Message): (p: Progress)
    ensures WellTyped(p)
  {
    Progress(Entry(Completed, False, InstallInProgress, IN_PROGRESS), Entry(Stopped, False, InstallInProgress, m),
             Entry(Failed, False, InstallInProgress, IN_PROGRESS))
  }

  function TimedOut(timeout: int): (p: Progress)
    ensures WellTyped(p)
  {
    Progress(Entry(Completed, False, InstallTimedOut, TimeoutText(timeout)),
             Entry(Stopped, False, InstallTimedOut, TIMED_OUT),
             Entry(Failed, True, InstallTimedOut, TimeoutText(timeout)))
  }

  function Installed(): (p: Progress)
    ensures WellTyped(p)
  {
    Progress(Entry(Completed, True, InstallSucceeded, SUCCEEDED), Entry(Stopped, True, InstallSucceeded, SUCCEEDED),
             Entry(Failed, False, InstallSucceeded, SUCCEEDED))
  }

  datatype Recorded = Recorded(w: World, err: bool)

  /** The three conditions in one patch, when any of them changes. */
  function RecordProgress(w: World, i: Install, p: Progress, fault: WriteFault): (r: Recorded)
    requires w.install.Some? && WellTyped(p)
    ensures r.w.install.Some? && r.w == w.(install := r.w.install)
  {
    var list := SetProgress(i.status.conditions, p, w.now);
    if list == i.status.conditions then Recorded(w, false)
    else if fault == Lost then Recorded(w, true)
    else Recorded(PatchConditions(w, list), fault != Fine)
  }

  /** The timeout in force, unless the annotation does not parse. */
  function EffectiveTimeout(o: Options, i: Install): Option<int> {
    match i.timeout
    case NotSet => Some(o.defaultTimeout)
    case Malformed => None
    case Seconds(n) => Some(n)
  }

  datatype TimeoutCheck = TimeoutCheck(w: World, timedOut: bool, err: bool)

  function CheckTimeout(o: Options, w: World, i: Install, f: MonitorFaults): (r: TimeoutCheck)
    requires w.install.Some?
    ensures r.w.install.Some? && r.w == w.(install := r.w.install)
  {
    if InstallationTimedOut(i) then TimeoutCheck(w, true, false)
    else if EffectiveTimeout(o, i).None? then TimeoutCheck(w, false, true)
    else if i.status.bootTime.Some? && i.status.bootTime.value + EffectiveTimeout(o, i).value < w.now then
      TimeoutCheck(RecordProgress(w, i, TimedOut(EffectiveTimeout(o, i).value), f.record).w, true, false)
    else TimeoutCheck(w, false, false)
  }

  /** Not installed yet: give up after the timeout, else report progress and come back. */
  function Wait(o: Options, w: World, i: Install, m: Message, f: MonitorFaults): MonitorEnd
    requires w.install.Some?
  {
    var t := CheckTimeout(o, w, i, f);
    if t.err then MonitorEnd(t.w, NoRequeue, true)
    else if t.timedOut then MonitorEnd(t.w, RequeueAfter(3600), false)
    else MonitorEnd(RecordProgress(t.w, i, Installing(m), f.record).w, RequeueAfter(60), false)
  }

  predicate Terminating(w: World, ref: HostRef) {
    ref in w.images && w.images[ref].terminating
  }

  /** A data image on its way out is waited for. */
  function AwaitDeletion(w: World, i: Install, f: MonitorFaults): MonitorEnd
    requires w.install.Some?
  {
    MonitorEnd(RecordProgress(w, i, Installing(AWAITING_DELETION), f.record).w, RequeueAfter(60), false)
  }

  /** The cluster reports that it is installed: the data image must be gone before that is recorded. */
  function Complete(w: World, i: Install, ref: HostRef, f: MonitorFaults): MonitorEnd
    requires w.install.Some?
  {
    var r := RemoveDataImage(w, ref, f.removal);
    if r.err || f.recheckImage then MonitorEnd(r.w, NoRequeue, true)
    else if Terminating(r.w, ref) then AwaitDeletion(r.w, i, f)
    else
      var done := RecordProgress(r.w, i, Installed(), f.record);
      MonitorEnd(done.w, NoRequeue, done.err)
  }

  /**
   The metadata names a secret with something under the key `kubeconfig`. Of the operator's own secrets only the admin
   kubeconfig has that key; whether some other secret has it is up to `spokeClient`.
   */
  predicate KubeconfigAt(s: Secrets, metadata: Option<Metadata>) {
    && metadata.Some?
    && match metadata.value.kubeconfigSecret {
         case Own(n) => n.kind == AdminKubeconfig && Content(s, n).Some?
         case Foreign(text) => text != ""
       }
  }

  function CheckClusterStatus(o: Options, w: World, i: Install, ref: HostRef, f: MonitorFaults): MonitorEnd
    requires w.install.Some?
  {
    if f.getImage then MonitorEnd(w, NoRequeue, true)
    else if Terminating(w, ref) then AwaitDeletion(w, i, f)
    else if !KubeconfigAt(w.secrets, i.spec.metadata) || f.spokeClient then MonitorEnd(w, NoRequeue, true)
    else if !IsInstalled(f.spoke) then Wait(o, w, i, StatusText(InstallStatus(f.spoke)), f)
    else Complete(w, i, ref, f)
  }

  function MonitorReconcile(o: Options, w: World, f: MonitorFaults): MonitorEnd {
    if w.install.None? then MonitorEnd(w, NoRequeue, false)
    else if f.getInstall then MonitorEnd(w, NoRequeue, true)
    else
      var i := w.install.value;
      if i.status.bootTime.None? || InstallationCompleted(i) then MonitorEnd(w, NoRequeue, false)
      else if i.status.host.None? || f.getHost || i.status.host.value !in w.hosts then MonitorEnd(w, NoRequeue, true)
      else if !w.hosts[i.status.host.value].poweredOn then Wait(o, w, i, AWAITING_POWER, f)
      else CheckClusterStatus(o, w, i, i.status.host.value, f)
  }
}
