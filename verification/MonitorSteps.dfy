/**
 The monitor as code: controllers/imageclusterinstall_monitor.go, each method proved to do what the step function
 of the same part says.
 */
module MonitorSteps {
  import opened Base
  import opened Spoke
  import opened Conditions
  import opened Credentials
  import opened Hub
  import opened DataImages
  import opened Monitor

  /** One call: the client and the condition list in memory. */
  class Watching {
    const c: Cluster
    const conditions: ConditionList

    constructor (c: Cluster, conditions: ConditionList)
      ensures this.c == c && this.conditions == conditions
    {
      this.c, this.conditions := c, conditions;
    }

    /** The list in memory is that of the object read at the start of the call. */
    ghost predicate Holds(i: Install)
      reads this, c, conditions
    {
      c.install.Some? && conditions.items == i.status.conditions
    }

    method SetConditions(p: Progress, fault: WriteFault, ghost i: Install) returns (err: bool)
      requires Holds(i) && WellTyped(p)
      modifies c, conditions
      ensures Recorded(c.State(), err) == RecordProgress(old(c.State()), i, p, fault)
    {
      hide SetProgress;
      var updated := conditions.SetProgressConditions(p, c.now);
      if !updated {
        return false;
      }
      if fault == Lost {
        return true;
      }
      c.install := Some(c.install.value.(status := c.install.value.status.(conditions := conditions.items)));
      return fault != Fine;
    }

    method HasTimedOut(ghost i: Install) returns (r: bool)
      requires Holds(i)
      ensures r <==> InstallationTimedOut(i)
    {
      var failed := conditions.FindCondition(Failed);
      r := failed >= 0 && conditions.items[failed].status == True && conditions.items[failed].reason == InstallTimedOut;
    }

    method HandleClusterTimeout(o: Options, ici: Install, f: MonitorFaults) returns (timedOut: bool, err: bool)
      requires Holds(ici)
      modifies c, conditions
      ensures TimeoutCheck(c.State(), timedOut, err) == CheckTimeout(o, old(c.State()), ici, f)
      ensures !timedOut && !err ==> conditions.items == old(conditions.items)
    {
      hide RecordProgress, TimedOut, InstallationTimedOut;
      var timeout := o.defaultTimeout;
      var already := HasTimedOut(ici);
      if already {
        return true, false;
      }
      match ici.timeout {
        case NotSet =>
        case Malformed =>
          return false, true;
        case Seconds(n) =>
          timeout := n;
      }
      if ici.status.bootTime.Some? && ici.status.bootTime.value + timeout < c.now {
        var _ := SetConditions(TimedOut(timeout), f.record, ici);
        return true, false;
      }
      return false, false;
    }

    /** The part that both waits share: a timeout, or progress and another call in a minute. */
    method AwaitInstallation(o: Options, ici: Install, m: Message, f: MonitorFaults)
      returns (requeue: Requeue, err: bool)
      requires Holds(ici)
      modifies c, conditions
      ensures MonitorEnd(c.State(), requeue, err) == Wait(o, old(c.State()), ici, m, f)
    {
      hide RecordProgress, CheckTimeout, Installing;
      var timedOut;
      timedOut, err := HandleClusterTimeout(o, ici, f);
      if err {
        return NoRequeue, true;
      }
      if timedOut {
        return RequeueAfter(3600), false;
      }
      var _ := SetConditions(Installing(m), f.record, ici);
      return RequeueAfter(60), false;
    }

    method HandleDataImageDeletion(ici: Install, ref: HostRef, getFails: bool, f: MonitorFaults)
      returns (requeue: Requeue, stop: bool, err: bool)
      requires Holds(ici)
      modifies c, conditions
      ensures stop <==> getFails || Terminating(old(c.State()), ref)
      ensures err == getFails
      ensures !stop ==> c.State() == old(c.State()) && conditions.items == old(conditions.items)
      ensures getFails ==> c.State() == old(c.State()) && requeue == NoRequeue
      ensures stop && !err ==> MonitorEnd(c.State(), requeue, false) == AwaitDeletion(old(c.State()), ici, f)
    {
      hide RecordProgress, Installing;
      if getFails {
        return NoRequeue, true, true;
      }
      if ref in c.images && c.images[ref].terminating {
        var _ := SetConditions(Installing(AWAITING_DELETION), f.record, ici);
        return RequeueAfter(60), true, false;
      }
      return NoRequeue, false, false;
    }

    method CompleteInstallation(ici: Install, ref: HostRef, f: MonitorFaults) returns (requeue: Requeue, err: bool)
      requires Holds(ici)
      modifies c, conditions
      ensures MonitorEnd(c.State(), requeue, err) == Complete(old(c.State()), ici, ref, f)
    {
      hide RemoveDataImage, RecordProgress, Installed, AwaitDeletion;
      var _, removeErr := Remove(c, ref, f.removal);
      if removeErr {
        return NoRequeue, true;
      }
      var stop;
      requeue, stop, err := HandleDataImageDeletion(ici, ref, f.recheckImage, f);
      if stop || err {
        return;
      }
      err := SetConditions(Installed(), f.record, ici);
      requeue := NoRequeue;
    }

    /** The reference, the secret, and the one key that is read from it. */
    method FindKubeconfig(metadata: Option<Metadata>) returns (found: bool)
      ensures found <==> KubeconfigAt(c.secrets, metadata)
    {
      if metadata.None? || metadata.value.kubeconfigSecret == Foreign("") {
        return false;
      }
      var ref := metadata.value.kubeconfigSecret;
      if ref.Foreign? {
        return true;
      }
      if ref.name !in c.secrets || ref.name.kind != AdminKubeconfig {
        return false;
      }
      var data := c.secrets[ref.name];
      return data.Some? && data.value != Empty;
    }

    method CheckStatus(o: Options, ici: Install, ref: HostRef, f: MonitorFaults) returns (requeue: Requeue, err: bool)
      requires Holds(ici)
      modifies c, conditions
      ensures MonitorEnd(c.State(), requeue, err) == CheckClusterStatus(o, old(c.State()), ici, ref, f)
    {
      hide Wait, Complete, AwaitDeletion, IsInstalled, InstallStatus;
      var stop;
      requeue, stop, err := HandleDataImageDeletion(ici, ref, f.getImage, f);
      if stop || err {
        return;
      }
      var found := FindKubeconfig(ici.spec.metadata);
      if !found || f.spokeClient {
        return NoRequeue, true;
      }
      var status := GetClusterInstallStatus(f.spoke);
      if !status.installed {
        requeue, err := AwaitInstallation(o, ici, StatusText(status), f);
        return;
      }
      requeue, err := CompleteInstallation(ici, ref, f);
    }
  }

  /** One call of the monitor. */
  method WatchInstallation(o: Options, c: Cluster, f: MonitorFaults) returns (requeue: Requeue, err: bool)
    modifies c
    ensures MonitorEnd(c.State(), requeue, err) == MonitorReconcile(o, old(c.State()), f)
  {
    hide Wait, CheckClusterStatus;
    if c.install.None? {
      return NoRequeue, false;
    }
    if f.getInstall {
      return NoRequeue, true;
    }
    var ici := c.install.value;
    if ici.status.bootTime.None? {
      return NoRequeue, false;
    }
    var conditions := new ConditionList(ici.status.conditions);
    var completed := conditions.FindCondition(Completed);
    if completed >= 0 && conditions.items[completed].status == True {
      return NoRequeue, false;
    }
    if ici.status.host.None? || f.getHost || ici.status.host.value !in c.hosts {
      return NoRequeue, true;
    }
    var ref := ici.status.host.value;
    var call := new Watching(c, conditions);
    if !c.hosts[ref].poweredOn {
      requeue, err := call.AwaitInstallation(o, ici, AWAITING_POWER, f);
      return;
    }
    requeue, err := call.CheckStatus(o, ici, ref, f);
  }
}
