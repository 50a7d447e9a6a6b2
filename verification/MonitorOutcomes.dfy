/** What an undisturbed call of the monitor says and asks for: when it waits, gives up, fails, or records success. */
module MonitorOutcomes {
  import opened Base
  import opened Spoke
  import opened Conditions
  import opened Credentials
  import opened Hub
  import opened DataImages
  import opened Monitor
  import opened MonitorEffects
  import opened Progress
  import opened WindDown

  /** The timeout in force: the annotation if there is one, else the default. */
  predicate InForce(o: Options, i: Install, timeout: int) {
    i.timeout == Seconds(timeout) || (i.timeout == NotSet && timeout == o.defaultTimeout)
  }

  /** The host has no power, or the cluster can be asked and is not installed; no data image is on its way out. */
  predicate NotThereYet(w: World, f: MonitorFaults) {
    && Watched(w)
    && w.install.value.status.host.Some? && w.install.value.status.host.value in w.hosts
    && (|| !w.hosts[w.install.value.status.host.value].poweredOn
        || (Running(w) && !IsInstalled(f.spoke)))
  }

  /** Failed says that the timeout has passed. */
  predicate GivenUp(list: seq<Condition>) {
    && Find(list, Failed).Some?
    && Find(list, Failed).value.status == True && Find(list, Failed).value.reason == InstallTimedOut
  }

  lemma GivenUpIff(i: Install)
    ensures GivenUp(i.status.conditions) <==> InstallationTimedOut(i)
  {
  }

  /** What the Stopped condition says while the installation is waited for. */
  function WaitText(w: World, f: MonitorFaults): Message
    requires NotThereYet(w, f)
  {
    if w.hosts[w.install.value.status.host.value].poweredOn then StatusText(InstallStatus(f.spoke))
    else AWAITING_POWER
  }

  lemma CallWaits(o: Options, w: World, f: MonitorFaults)
    requires NotThereYet(w, f) && !f.getInstall && !f.getHost && !f.getImage && !f.spokeClient
    ensures MonitorReconcile(o, w, f) == Wait(o, w, w.install.value, WaitText(w, f), f)
  {
    hide Wait, Complete, IsInstalled, InstallStatus, Find;
  }

  /** One entry says this. */
  predicate EntrySays(list: seq<Condition>, kind: ConditionType, status: ConditionStatus, reason: Reason, m: Message) {
    Find(list, kind).Some? && Saying(Find(list, kind).value) == (status, reason, m)
  }

  /** The installation is under way, and Stopped says what it waits for. */
  predicate SaysWaiting(list: seq<Condition>, m: Message) {
    && EntrySays(list, Completed, False, InstallInProgress, IN_PROGRESS)
    && EntrySays(list, Stopped, False, InstallInProgress, m)
    && EntrySays(list, Failed, False, InstallInProgress, IN_PROGRESS)
  }

  /** The installation has been given up after this time. */
  predicate SaysGivenUp(list: seq<Condition>, timeout: int) {
    && EntrySays(list, Completed, False, InstallTimedOut, TimeoutText(timeout))
    && EntrySays(list, Stopped, False, InstallTimedOut, TIMED_OUT)
    && EntrySays(list, Failed, True, InstallTimedOut, TimeoutText(timeout))
  }

  predicate SaysInstalled(list: seq<Condition>) {
    && EntrySays(list, Completed, True, InstallSucceeded, SUCCEEDED)
    && EntrySays(list, Stopped, True, InstallSucceeded, SUCCEEDED)
    && EntrySays(list, Failed, False, InstallSucceeded, SUCCEEDED)
  }

  lemma MergeSays(e: Option<Condition>, c: Condition, now: int)
    ensures Saying(Merge(e, c, now)) == Saying(c)
  {
  }

  lemma ProgressSays(list: seq<Condition>, now: int, p: Conditions.Progress)
    requires WellTyped(p)
    ensures var r := SetProgress(list, p, now);
      && EntrySays(r, Completed, p.completed.status, p.completed.reason, p.completed.message)
      && EntrySays(r, Stopped, p.stopped.status, p.stopped.reason, p.stopped.message)
      && EntrySays(r, Failed, p.failed.status, p.failed.reason, p.failed.message)
  {
    hide Merge, Find;
    MergeSays(Find(list, Completed), p.completed, now);
    MergeSays(Find(list, Stopped), p.stopped, now);
    MergeSays(Find(list, Failed), p.failed, now);
  }

  lemma WaitSays(list: seq<Condition>, now: int, m: Message, timeout: int)
    ensures SaysWaiting(SetProgress(list, Installing(m), now), m)
    ensures SaysGivenUp(SetProgress(list, TimedOut(timeout), now), timeout)
    ensures SaysInstalled(SetProgress(list, Installed(), now))
  {
    hide SetProgress, EntrySays;
    ProgressSays(list, now, Installing(m));
    ProgressSays(list, now, TimedOut(timeout));
    ProgressSays(list, now, Installed());
  }

  /** What one undisturbed record of progress leaves. */
  lemma RecordSays(w: World, p: Conditions.Progress)
    requires w.install.Some? && WellTyped(p)
    ensures var v := RecordProgress(w, w.install.value, p, Fine).w;
            v == PatchConditions(w, Stored(v)) && Stored(v) == SetProgress(Stored(w), p, w.now)
  {
    hide SetProgress;
    assert PatchConditions(w, Stored(w)) == w;
  }

  lemma WaitDecides(o: Options, w: World, m: Message, f: MonitorFaults, timeout: int)
    requires w.install.Some? && w.install.value.status.bootTime.Some? && f.record == Fine
    requires !GivenUp(Stored(w)) && InForce(o, w.install.value, timeout)
    ensures var out := Wait(o, w, w.install.value, m, f);
      && !out.err && out.w.install.Some? && out.w == PatchConditions(w, Stored(out.w))
      && (if w.install.value.status.bootTime.value + timeout < w.now
          then && Stored(out.w) == SetProgress(Stored(w), TimedOut(timeout), w.now)
               && out.requeue == RequeueAfter(3600)
          else && Stored(out.w) == SetProgress(Stored(w), Installing(m), w.now)
               && out.requeue == RequeueAfter(60))
  {
    hide RecordProgress, SetProgress, Installing, TimedOut, GivenUp, InstallationTimedOut;
    GivenUpIff(w.install.value);
    RecordSays(w, TimedOut(timeout));
    RecordSays(w, Installing(m));
  }

  /**
   An undisturbed call on an installation that is not there yet, and has not been given up before, gives it up if and
   only if the clock is strictly past the boot time plus the timeout in force. It then asks for an hour; otherwise it
   says what it waits for and asks for a minute. Nothing else changes.
   */
  lemma GivesUpIff(o: Options, w: World, f: MonitorFaults, timeout: int)
    requires SmoothWatch(f) && NotThereYet(w, f)
    requires !GivenUp(Stored(w)) && InForce(o, w.install.value, timeout)
    ensures var out := MonitorReconcile(o, w, f);
      && !out.err && out.w.install.Some? && out.w == PatchConditions(w, Stored(out.w))
      && (if w.install.value.status.bootTime.value + timeout < w.now
          then SaysGivenUp(Stored(out.w), timeout) && out.requeue == RequeueAfter(3600)
          else SaysWaiting(Stored(out.w), WaitText(w, f)) && out.requeue == RequeueAfter(60))
  {
    assert Watched(w);
    hide SaysWaiting, SaysGivenUp, MonitorReconcile, WaitText, NotThereYet, GivenUp, Installing, TimedOut, Wait, Find;
    CallWaits(o, w, f);
    WaitDecides(o, w, WaitText(w, f), f, timeout);
    WaitSays(Stored(w), w.now, WaitText(w, f), timeout);
  }

  /** An installation that was given up is left alone until it is there; an unreadable annotation is an error. */
  lemma GivenUpIsLeftAlone(o: Options, w: World, f: MonitorFaults)
    requires SmoothWatch(f) && NotThereYet(w, f)
    ensures var out := MonitorReconcile(o, w, f);
      && (GivenUp(Stored(w)) ==> out == MonitorEnd(w, RequeueAfter(3600), false))
      && (!GivenUp(Stored(w)) && w.install.value.timeout == Malformed ==>
            out == MonitorEnd(w, NoRequeue, true))
  {
    assert Watched(w);
    hide MonitorReconcile, WaitText, NotThereYet, GivenUp, InstallationTimedOut, RecordProgress;
    GivenUpIff(w.install.value);
    CallWaits(o, w, f);
  }

  /** A data image on its way out is waited for, for as long as it takes. */
  lemma TerminatingImageIsAwaited(o: Options, w: World, f: MonitorFaults)
    requires SmoothWatch(f) && Watched(w)
    requires w.install.value.status.host.Some? && w.install.value.status.host.value in w.hosts
    requires var ref := w.install.value.status.host.value;
             w.hosts[ref].poweredOn && ref in w.images && w.images[ref].terminating
    ensures var out := MonitorReconcile(o, w, f);
      && !out.err && out.requeue == RequeueAfter(60)
      && out.w.install.Some? && out.w == PatchConditions(w, Stored(out.w))
      && SaysWaiting(Stored(out.w), AWAITING_DELETION)
  {
    hide SaysWaiting, Installing, Wait, Complete, IsInstalled, Find, RecordProgress;
    assert MonitorReconcile(o, w, f) == AwaitDeletion(w, w.install.value, f);
    WaitSays(Stored(w), w.now, AWAITING_DELETION, 0);
    RecordSays(w, Installing(AWAITING_DELETION));
  }

  // ---------------------------------------------------------- all other calls

  /** An undisturbed call on a running, installed cluster whose data image is gone, or goes at once, records success. */
  lemma InstalledIsSaid(o: Options, w: World, f: MonitorFaults)
    requires Running(w) && SmoothWatch(f) && IsInstalled(f.spoke)
    requires w.install.value.status.host.value in w.images ==> f.removal.gone
    ensures var out := MonitorReconcile(o, w, f);
            !out.err && out.requeue == NoRequeue && out.w.install.Some? && SaysInstalled(Stored(out.w))
  {
    hide IsInstalled, InstallStatus, Wait, Find, SaysInstalled, RecordProgress, Installed, SmoothRemoval;
    var ref := w.install.value.status.host.value;
    var r := RemoveDataImage(w, ref, f.removal);
    assert !r.err && ref !in r.w.images by { GoneAtOnce(w, ref, f.removal); }
    assert MonitorReconcile(o, w, f) == Complete(w, w.install.value, ref, f);
    RecordSays(r.w, Installed());
    RecordIsFine(r.w, Installed());
    WaitSays(Stored(w), w.now, AWAITING_DELETION, 0);
  }

  lemma GoneAtOnce(w: World, ref: HostRef, f: RemovalFaults)
    requires SmoothRemoval(f) && (ref in w.images ==> f.gone)
    ensures !RemoveDataImage(w, ref, f).err && ref !in RemoveDataImage(w, ref, f).w.images
  {
  }

  lemma RecordIsFine(w: World, p: Conditions.Progress)
    requires w.install.Some? && WellTyped(p)
    ensures !RecordProgress(w, w.install.value, p, Fine).err
  {
  }

  /** Nothing to watch: no object, not started, or completed. */
  lemma UnwatchedIsLeftAlone(o: Options, w: World, f: MonitorFaults)
    requires !f.getInstall && !Watched(w)
    ensures MonitorReconcile(o, w, f) == MonitorEnd(w, NoRequeue, false)
  {
  }

  /** The host is recorded and exists. */
  predicate HostFound(w: World) {
    w.install.Some? && w.install.value.status.host.Some? && w.install.value.status.host.value in w.hosts
  }

  /** The installation has to be waited for, and how long cannot be read. */
  predicate TimeoutUnreadable(w: World)
    requires w.install.Some?
  {
    !GivenUp(Stored(w)) && w.install.value.timeout == Malformed
  }

  /** An installed cluster whose completion cannot be recorded. */
  predicate CompletionFails(w: World, ref: HostRef, f: MonitorFaults) {
    || RemovalFails(w, ref, f.removal) || f.recheckImage
    || (!(ref in w.images && !f.removal.gone) && f.record != Fine)
  }

  /**
   A kubeconfig can be read: the metadata names the admin kubeconfig of some deployment, and that secret exists with
   something in it; or it names some other secret, and is not empty.
   */
  predicate CanBeAsked(w: World)
    requires w.install.Some?
  {
    && w.install.value.spec.metadata.Some?
    && var ref := w.install.value.spec.metadata.value.kubeconfigSecret;
       || (&& ref.Own? && Render(ref.name) == ref.name.deployment + "-admin-kubeconfig"
           && ref.name in w.secrets && w.secrets[ref.name].Some? && w.secrets[ref.name] != Some(Empty))
       || (ref.Foreign? && ref.text != "")
  }

  lemma CanBeAskedIff(w: World)
    requires w.install.Some?
    ensures KubeconfigAt(w.secrets, w.install.value.spec.metadata) <==> CanBeAsked(w)
  {
    var m := w.install.value.spec.metadata;
    if m.Some? && m.value.kubeconfigSecret.Own? {
      var n := m.value.kubeconfigSecret.name;
      if Render(n) == n.deployment + "-admin-kubeconfig" {
        RenderInjective(n, SecretName(AdminKubeconfig, n.deployment));
      }
    }
  }

  /** What makes a call on a watched installation with this host fail. */
  predicate WatchFails(w: World, ref: HostRef, f: MonitorFaults)
    requires w.install.Some? && ref in w.hosts
  {
    if !w.hosts[ref].poweredOn then TimeoutUnreadable(w)
    else || f.getImage
         || (&& !(ref in w.images && w.images[ref].terminating)
             && (|| f.spokeClient || !CanBeAsked(w)
                 || if IsInstalled(f.spoke) then CompletionFails(w, ref, f) else TimeoutUnreadable(w)))
  }

  /**
   Whatever fails: a call of the monitor ends with an error if and only if the object cannot be read, or a watched
   installation has no host, or an operation fails that is due, or the cluster cannot be asked, or the timeout cannot
   be read when it matters.
   */
  lemma ErrsIff(o: Options, w: World, f: MonitorFaults)
    ensures var out := MonitorReconcile(o, w, f);
      && (out.err <==> && w.install.Some?
                       && (|| f.getInstall
                           || (&& Watched(w)
                               && (|| !HostFound(w) || f.getHost
                                   || WatchFails(w, w.install.value.status.host.value, f)))))
      && (out.err ==> out.requeue == NoRequeue)
  {
    hide Wait, Complete, IsInstalled, InstallStatus, Find, RecordProgress, TimeoutUnreadable, CompletionFails,
         CanBeAsked, KubeconfigAt;
    if Watched(w) && HostFound(w) {
      CanBeAskedIff(w);
      WaitErrsIff(o, w, AWAITING_POWER, f);
      WaitErrsIff(o, w, StatusText(InstallStatus(f.spoke)), f);
      CompleteErrsIff(w, w.install.value.status.host.value, f);
    }
  }

  lemma CompleteErrsIff(w: World, ref: HostRef, f: MonitorFaults)
    requires Watched(w)
    ensures var out := Complete(w, w.install.value, ref, f);
      && (out.err <==> CompletionFails(w, ref, f))
      && (out.err ==> out.requeue == NoRequeue)
  {
    hide RemoveDataImage, RecordProgress, RemovalFails, Find, Installing, Installed;
    RemovalFailsIff(w, ref, f.removal);
    var r := RemoveDataImage(w, ref, f.removal);
    InstalledIsNews(r.w, f.record);
  }

  /** Success is always news in an installation that is not completed. */
  lemma InstalledIsNews(w: World, fault: WriteFault)
    requires w.install.Some? && !InstallationCompleted(w.install.value)
    ensures RecordProgress(w, w.install.value, Installed(), fault).err <==> fault != Fine
  {
    var list := SetProgress(Stored(w), Installed(), w.now);
    assert HasStatus(list, Completed, True);
  }

  lemma WaitErrsIff(o: Options, w: World, m: Message, f: MonitorFaults)
    requires w.install.Some?
    ensures var out := Wait(o, w, w.install.value, m, f);
            (out.err <==> TimeoutUnreadable(w)) && (out.err ==> out.requeue == NoRequeue)
  {
    hide RecordProgress, GivenUp, InstallationTimedOut;
    GivenUpIff(w.install.value);
  }

  // ------------------------------------------------------------ many calls

  /** One call of the monitor, some time after the one before it. */
  datatype Poll = Poll(faults: MonitorFaults, later: nat)

  function Polled(o: Options, w: World, polls: seq<Poll>): World
    decreases |polls|
  {
    if polls == [] then w
    else
      var u := w.(now := w.now + polls[0].later);
      Polled(o, MonitorReconcile(o, u, polls[0].faults).w, polls[1..])
  }

  /** Every call is undisturbed and finds the host without power or the cluster not installed. */
  predicate Patient(w: World, polls: seq<Poll>) {
    forall p :: p in polls ==> SmoothWatch(p.faults) && NotThereYet(w, p.faults)
  }

  /** The statuses that matter for the next call. */
  predicate Alike(w: World, v: World) {
    && Watched(w) && v.install.Some?
    && v == PatchConditions(w.(now := v.now), Stored(v))
    && !InstallationCompleted(v.install.value)
  }

  lemma AlikeWaits(w: World, v: World, f: MonitorFaults)
    requires NotThereYet(w, f) && Alike(w, v)
    ensures NotThereYet(v, f)
  {
    hide IsInstalled, Find;
  }

  lemma SaysMeans(w: World)
    requires w.install.Some?
    ensures (exists t :: SaysGivenUp(Stored(w), t)) ==>
              GivenUp(Stored(w)) && !InstallationCompleted(w.install.value)
    ensures (exists m :: SaysWaiting(Stored(w), m)) ==>
              !GivenUp(Stored(w)) && !InstallationCompleted(w.install.value)
  {
  }

  /** One call: given up from the first call on that comes after the timeout. */
  lemma PollStep(o: Options, w: World, f: MonitorFaults, timeout: int)
    requires SmoothWatch(f) && NotThereYet(w, f) && InForce(o, w.install.value, timeout)
    ensures var v := MonitorReconcile(o, w, f).w;
      && Alike(w, v) && v.now == w.now && InForce(o, v.install.value, timeout)
      && (GivenUp(Stored(v)) <==>
            GivenUp(Stored(w)) || w.install.value.status.bootTime.value + timeout < w.now)
  {
    hide SaysWaiting, SaysGivenUp, MonitorReconcile, GivenUp, InstallationCompleted, SmoothWatch, IsInstalled, Find;
    var v := MonitorReconcile(o, w, f).w;
    assert PatchConditions(w, Stored(w)) == w;
    if GivenUp(Stored(w)) {
      GivenUpIsLeftAlone(o, w, f);
    } else {
      GivesUpIff(o, w, f, timeout);
      SaysMeans(v);
    }
  }

  lemma AlikeTwice(w: World, u: World, v: World)
    requires Alike(w, u) && Alike(u, v)
    ensures Alike(w, v)
  {
    hide Find;
  }

  lemma LaterIsAlike(w: World, now: int)
    requires Watched(w)
    ensures Alike(w, w.(now := now))
  {
    hide Find;
  }

  /**
   However often the monitor is called: an installation that does not get there is given up exactly when one of the
   calls was made after the timeout, which for calls in the order of time is the last one.
   */
  lemma {:induction false} PollingGivesUpIff(o: Options, w: World, polls: seq<Poll>, timeout: int)
    requires Watched(w) && Patient(w, polls) && polls != []
    requires !GivenUp(Stored(w)) && InForce(o, w.install.value, timeout)
    ensures var v := Polled(o, w, polls);
      && Alike(w, v) && w.now <= v.now
      && (GivenUp(Stored(v)) <==> w.install.value.status.bootTime.value + timeout < v.now)
  {
    PollingFrom(o, w, polls, timeout);
  }

  lemma {:induction false} PollingFrom(o: Options, w: World, polls: seq<Poll>, timeout: int)
    requires Watched(w) && Patient(w, polls) && InForce(o, w.install.value, timeout)
    requires GivenUp(Stored(w)) ==> w.install.value.status.bootTime.value + timeout < w.now
    ensures var v := Polled(o, w, polls);
      && Alike(w, v) && w.now <= v.now
      && (polls != [] ==>
            (GivenUp(Stored(v)) <==> w.install.value.status.bootTime.value + timeout < v.now))
    decreases |polls|
  {
    hide GivenUp, MonitorReconcile, SmoothWatch, NotThereYet, Alike;
    LaterIsAlike(w, w.now);
    if polls == [] {
      assert w.(now := w.now) == w;
    } else {
      var p := polls[0];
      assert p in polls;
      var u := w.(now := w.now + p.later);
      LaterIsAlike(w, u.now);
      AlikeWaits(w, u, p.faults);
      PollStep(o, u, p.faults, timeout);
      var v := MonitorReconcile(o, u, p.faults).w;
      AlikeTwice(w, u, v);
      AlikeIs(w, v);
      forall q | q in polls[1..] ensures SmoothWatch(q.faults) && NotThereYet(v, q.faults) {
        assert q in polls;
        AlikeWaits(w, v, q.faults);
      }
      PollingFrom(o, v, polls[1..], timeout);
      AlikeTwice(w, v, Polled(o, w, polls));
    }
  }

  lemma AlikeIs(w: World, v: World)
    requires Alike(w, v)
    ensures Watched(v) && v.install.value.status.bootTime == w.install.value.status.bootTime
    ensures v.install.value.timeout == w.install.value.timeout
  {
  }
}
