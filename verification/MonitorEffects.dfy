/** What one reconcile of the monitor can and cannot change. */
module MonitorEffects {
  import opened Base
  import opened Spoke
  import opened Conditions
  import opened Hub
  import opened DataImages
  import opened Monitor

  /** The statuses of the three progress conditions. */
  predicate Shows(list: seq<Condition>, completed: ConditionStatus, stopped: ConditionStatus, failed: ConditionStatus) {
    && StatusOf(list, Completed) == Some(completed)
    && StatusOf(list, Stopped) == Some(stopped)
    && StatusOf(list, Failed) == Some(failed)
  }

  predicate ShowsInProgress(list: seq<Condition>) {
    Shows(list, False, False, False)
  }

  predicate ShowsTimedOut(list: seq<Condition>) {
    Shows(list, False, False, True) && Find(list, Failed).value.reason == InstallTimedOut
  }

  predicate ShowsInstalled(list: seq<Condition>) {
    Shows(list, True, True, False)
  }

  /** Images only disappear or start to terminate. */
  predicate ImagesShrink(before: map<HostRef, DataImage>, after: map<HostRef, DataImage>) {
    forall h :: h in after ==>
      h in before && (after[h] == before[h] || after[h] == before[h].(terminating := true))
  }

  /** The installation changes in its condition list only, and RequirementsMet is not touched. */
  predicate OnlyProgress(w: World, v: World) {
    && w.install.Some? && v.install.Some?
    && v.install.value == w.install.value.(status := w.install.value.status.(conditions := Stored(v)))
    && Find(Stored(v), RequirementsMet) == Find(Stored(w), RequirementsMet)
  }

  lemma RecordProgressEffect(w: World, p: Progress, fault: WriteFault)
    requires w.install.Some? && WellTyped(p)
    ensures var r := RecordProgress(w, w.install.value, p, fault);
      && r.w == w.(install := r.w.install)
      && OnlyProgress(w, r.w)
      && (Stored(r.w) == Stored(w) || Stored(r.w) == SetProgress(Stored(w), p, w.now))
      && (!r.err ==> Stored(r.w) == SetProgress(Stored(w), p, w.now))
  {
    assert w.install.value.(status := w.install.value.status.(conditions := Stored(w))) == w.install.value;
  }

  lemma ProgressShows(list: seq<Condition>, now: int, m: Message, timeout: int)
    ensures ShowsInProgress(SetProgress(list, Installing(m), now))
    ensures ShowsTimedOut(SetProgress(list, TimedOut(timeout), now))
    ensures ShowsInstalled(SetProgress(list, Installed(), now))
  {
    assert Find(SetProgress(list, TimedOut(timeout), now), Failed).value.reason == InstallTimedOut;
  }

  /** The clock is strictly past the boot time plus the timeout in force. */
  predicate PastTimeout(o: Options, w: World, i: Install) {
    && i.status.bootTime.Some? && i.timeout != Malformed
    && i.status.bootTime.value + (if i.timeout == NotSet then o.defaultTimeout else i.timeout.seconds) < w.now
  }

  predicate HostImageTerminating(images: map<HostRef, DataImage>, i: Install) {
    i.status.host.Some? && i.status.host.value in images && images[i.status.host.value].terminating
  }

  predicate HostImageGone(images: map<HostRef, DataImage>, i: Install) {
    i.status.host.Some? && i.status.host.value !in images
  }

  /** What a reconcile may write into the three progress conditions, and when. */
  predicate Recordable(o: Options, w: World, images: map<HostRef, DataImage>, list: seq<Condition>, installed: bool)
    requires w.install.Some?
  {
    var i := w.install.value;
    || (ShowsInProgress(list) && (HostImageTerminating(images, i) || !InstallationTimedOut(i)))
    || (ShowsTimedOut(list) && PastTimeout(o, w, i))
    || (ShowsInstalled(list) && HostImageGone(images, i) && installed)
  }

  /** One reconcile of the monitor. */
  predicate MonitorStep(o: Options, w: World, v: World, installed: bool) {
    && OnlyProgress(w, v)
    && v == w.(install := v.install, hosts := v.hosts, images := v.images)
    && ImagesShrink(w.images, v.images)
    && (|| Stored(v) == Stored(w)
        || (&& w.install.value.status.bootTime.Some?
            && !InstallationCompleted(w.install.value)
            && Recordable(o, w, v.images, Stored(v), installed)))
  }

  predicate Watched(w: World) {
    w.install.Some? && w.install.value.status.bootTime.Some? && !InstallationCompleted(w.install.value)
  }

  /** The world after images were removed, and the installation still as stored. */
  predicate Shrunk(w: World, u: World) {
    u == w.(images := u.images, hosts := u.hosts) && ImagesShrink(w.images, u.images)
  }

  lemma ShrunkIsStep(o: Options, w: World, u: World, installed: bool)
    requires w.install.Some? && Shrunk(w, u)
    ensures MonitorStep(o, w, u, installed)
  {
    hide Find, ImagesShrink;
    assert w.install.value.(status := w.install.value.status.(conditions := Stored(w))) == w.install.value;
  }

  lemma RecordIsStep(o: Options, w: World, u: World, p: Progress, fault: WriteFault, installed: bool)
    requires Watched(w) && Shrunk(w, u) && WellTyped(p)
    requires Recordable(o, w, u.images, SetProgress(Stored(w), p, w.now), installed)
    ensures MonitorStep(o, w, RecordProgress(u, w.install.value, p, fault).w, installed)
  {
    hide RecordProgress, Recordable, SetProgress, Find, InstallationCompleted, ImagesShrink;
    RecordProgressEffect(u, p, fault);
  }

  lemma WaitEffect(o: Options, w: World, m: Message, f: MonitorFaults)
    requires Watched(w)
    ensures MonitorStep(o, w, Wait(o, w, w.install.value, m, f).w, IsInstalled(f.spoke))
  {
    hide Shows, ShowsInProgress, ShowsTimedOut, ShowsInstalled, InstallationCompleted, Find, SetProgress,
         RecordProgress, MonitorStep,
         InstallationTimedOut, IsInstalled, Installing, TimedOut;
    var i := w.install.value;
    ShrunkIsStep(o, w, w, IsInstalled(f.spoke));
    if !InstallationTimedOut(i) && EffectiveTimeout(o, i).Some? {
      var timeout := EffectiveTimeout(o, i).value;
      ProgressShows(Stored(w), w.now, m, timeout);
      if PastTimeout(o, w, i) {
        RecordIsStep(o, w, w, TimedOut(timeout), f.record, IsInstalled(f.spoke));
      } else {
        RecordIsStep(o, w, w, Installing(m), f.record, IsInstalled(f.spoke));
      }
    }
  }

  lemma CompleteEffect(o: Options, w: World, f: MonitorFaults)
    requires Watched(w) && w.install.value.status.host.Some? && IsInstalled(f.spoke)
    ensures MonitorStep(o, w, Complete(w, w.install.value, w.install.value.status.host.value, f).w,
                        IsInstalled(f.spoke))
  {
    hide Shows, InstallationCompleted, Find, SetProgress, RecordProgress, RemoveDataImage, MonitorStep,
         InstallationTimedOut;
    var i := w.install.value;
    var r := RemoveDataImage(w, i.status.host.value, f.removal);
    ProgressShows(Stored(w), w.now, AWAITING_DELETION, 0);
    if r.err || f.recheckImage {
      ShrunkIsStep(o, w, r.w, IsInstalled(f.spoke));
    } else if Terminating(r.w, i.status.host.value) {
      RecordIsStep(o, w, r.w, Installing(AWAITING_DELETION), f.record, IsInstalled(f.spoke));
    } else {
      RecordIsStep(o, w, r.w, Installed(), f.record, IsInstalled(f.spoke));
    }
  }

  lemma AwaitDeletionEffect(o: Options, w: World, f: MonitorFaults)
    requires Watched(w) && HostImageTerminating(w.images, w.install.value)
    ensures MonitorStep(o, w, AwaitDeletion(w, w.install.value, f).w, IsInstalled(f.spoke))
  {
    hide Shows, Find, SetProgress, MonitorStep;
    ProgressShows(Stored(w), w.now, AWAITING_DELETION, 0);
    RecordIsStep(o, w, w, Installing(AWAITING_DELETION), f.record, IsInstalled(f.spoke));
  }

  /** Every reconcile of the monitor is such a step. */
  lemma MonitorEffect(o: Options, w: World, f: MonitorFaults)
    requires w.install.Some?
    ensures MonitorStep(o, w, MonitorReconcile(o, w, f).w, IsInstalled(f.spoke))
    ensures !Watched(w) ==> MonitorReconcile(o, w, f).w == w
  {
    hide Wait, Complete, AwaitDeletion, MonitorStep;
    ShrunkIsStep(o, w, w, IsInstalled(f.spoke));
    var i := w.install.value;
    if Watched(w) && !f.getInstall && i.status.host.Some? {
      WaitEffect(o, w, AWAITING_POWER, f);
      WaitEffect(o, w, StatusText(InstallStatus(f.spoke)), f);
      if IsInstalled(f.spoke) {
        CompleteEffect(o, w, f);
      }
      if Terminating(w, i.status.host.value) {
        AwaitDeletionEffect(o, w, f);
      }
    }
  }

  // ------------------------------------------------- one entry per type

  lemma RecordProgressDistinct(u: World, i: Install, p: Progress, fault: WriteFault)
    requires u.install.Some? && WellTyped(p) && Distinct(i.status.conditions) && Distinct(Stored(u))
    ensures Distinct(Stored(RecordProgress(u, i, p, fault).w))
  {
    hide Distinct, SetProgress;
    SetProgressKeepsDistinct(i.status.conditions, p, u.now);
  }

  lemma WaitDistinct(o: Options, w: World, m: Message, f: MonitorFaults)
    requires w.install.Some? && Distinct(Stored(w))
    ensures var v := Wait(o, w, w.install.value, m, f).w; v.install.Some? && Distinct(Stored(v))
  {
    hide Distinct, RecordProgress, InstallationTimedOut, Installing, TimedOut;
    var i := w.install.value;
    if EffectiveTimeout(o, i).Some? {
      RecordProgressDistinct(w, i, TimedOut(EffectiveTimeout(o, i).value), f.record);
    }
    RecordProgressDistinct(w, i, Installing(m), f.record);
  }

  lemma CompleteDistinct(w: World, ref: HostRef, f: MonitorFaults)
    requires w.install.Some? && Distinct(Stored(w))
    ensures var v := Complete(w, w.install.value, ref, f).w; v.install.Some? && Distinct(Stored(v))
  {
    hide Distinct, RecordProgress, RemoveDataImage, Installing, Installed;
    var r := RemoveDataImage(w, ref, f.removal);
    RecordProgressDistinct(r.w, w.install.value, Installing(AWAITING_DELETION), f.record);
    RecordProgressDistinct(r.w, w.install.value, Installed(), f.record);
  }

  /** The monitor keeps one entry per type. */
  lemma MonitorDistinct(o: Options, w: World, f: MonitorFaults)
    requires w.install.Some? && Distinct(Stored(w))
    ensures var v := MonitorReconcile(o, w, f).w; v.install.Some? && Distinct(Stored(v))
  {
    hide Distinct, Wait, Complete, RecordProgress, IsInstalled, InstallStatus, Installing;
    var i := w.install.value;
    WaitDistinct(o, w, AWAITING_POWER, f);
    WaitDistinct(o, w, StatusText(InstallStatus(f.spoke)), f);
    RecordProgressDistinct(w, i, Installing(AWAITING_DELETION), f.record);
    if i.status.host.Some? {
      CompleteDistinct(w, i.status.host.value, f);
    }
  }
}
