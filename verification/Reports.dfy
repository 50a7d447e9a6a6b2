/** What the RequirementsMet condition says about the reconcile that reports it. */
module Reports {
  import opened Base
  import opened Conditions
  import opened Credentials
  import opened Hub
  import opened DataImages
  import opened MainReconciler
  import opened MainEffects
  import opened Safety
  import opened Webhook

  /** The deferred update reports how the phases ended. */
  predicate HonestOutcome(out: Outcome) {
    out.report.Some? ==>
      && (out.err <==> IsFailedReason(out.report.value.reason))
      && (out.requeue != NoRequeue ==> IsPendingReason(out.report.value.reason))
      && (out.report.value.status == True <==> out.report.value.reason == HostConfigurationSucceeded)
      && out.report.value.status != Unknown
  }

  lemma RunPhasesHonest(o: Options, w: World, list: seq<Condition>, deployment: Option<ClusterDeployment>,
                        f: MainFaults)
    requires w.install.Some?
    requires deployment.Some? ==> w.install.value.spec.deployment.Some?
    ensures HonestOutcome(RunPhases(o, w, list, deployment, f))
  {
    hide Phases, RecordReport;
    PhaseReports(o, w, list, deployment, f);
  }

  lemma RunPhasesMet(o: Options, w: World, list: seq<Condition>, deployment: Option<ClusterDeployment>, f: MainFaults)
    requires w.install.Some? && Found(w, deployment) && CondSync(list, Stored(w))
    requires RunPhases(o, w, list, deployment, f).report == Some(MET)
    ensures var v := RunPhases(o, w, list, deployment, f).w;
            v.install.Some? && v.install.value.status.host.Some?
  {
    hide Phases, RecordReport, CondSync, Find, ReadyToBoot, InstallStep;
    var p := Phases(o, w, list, deployment, f);
    PhaseReports(o, w, list, deployment, f);
    PhasesReady(o, w, list, deployment, f);
    PhasesEffect(o, w, list, deployment, f);
    InstallStepCore(w.install.value, p.w.install.value, w.now);
    CondSyncRefl(Stored(w));
    RecordReportEffect(p.w, p.list, MET, f.report);
  }

  lemma GateHonest(o: Options, w: World, list: seq<Condition>, deployment: Option<ClusterDeployment>, f: MainFaults)
    requires w.install.Some? && Found(w, deployment) && CondSync(list, Stored(w))
    ensures var out := AfterRestoreGate(o, w, list, deployment, f);
      && HonestOutcome(out)
      && (out.report == Some(MET) ==> out.w.install.Some? && out.w.install.value.status.host.Some?)
  {
    hide Prepare, RunPhases, CondSync, Find, HonestOutcome, AllReported, Filled, SaysMet, StillReported, Core;
    var p := Prepare(w, list, f);
    PrepareEffect(w, list, f);
    if !p.err {
      RunPhasesHonest(o, p.w, p.list, deployment, f);
      if RunPhases(o, p.w, p.list, deployment, f).report == Some(MET) {
        RunPhasesMet(o, p.w, p.list, deployment, f);
      }
    }
    assert HonestOutcome(Stop(p.w, NoRequeue, true)) by { StopIsSilent(p.w, NoRequeue, true); }
  }

  lemma StopIsSilent(w: World, requeue: Requeue, err: bool)
    ensures HonestOutcome(Stop(w, requeue, err)) && Stop(w, requeue, err).report == None
  {
  }

  lemma ActiveHonest(o: Options, w: World, f: MainFaults)
    requires w.install.Some? && !InstallationCompleted(w.install.value)
    ensures var out := Active(o, w, f);
      && HonestOutcome(out)
      && (out.report == Some(MET) ==> out.w.install.Some? && out.w.install.value.status.host.Some?)
  {
    hide Repair, AfterRestoreGate, CondSync, Find, SaysMet, SameProgress, StillReported;
    var h := Repair(w, f);
    RepairEffect(w, f);
    GateHonest(o, h.w, h.list, LookUpDeployment(w, f), f);
  }

  lemma FinalizeIsSilent(w: World, f: MainFaults)
    requires w.install.Some?
    ensures Finalize(w, f).report == None && PostCleanup(w, f).report == None
  {
    hide RemoveDataImage;
  }

  /**
   For every reconcile that reaches the phases: an error is returned exactly when the reported reason is a Failed
   one, a requeue comes with a Pending reason, True is reported exactly with HostConfigurationSucceeded, and then
   the start of the installation is recorded.
   */
  lemma ReportsAreHonest(o: Options, w: World, f: MainFaults)
    requires Inv(w) && MainReconcile(o, w, f).report.Some?
    ensures var out := MainReconcile(o, w, f);
      && HonestOutcome(out)
      && (out.report.value.status == True ==>
            out.w.install.Some? && out.w.install.value.status.bootTime.Some?)
  {
    hide Active, Finalize, PostCleanup, Inv, Find;
    FinalizeIsSilent(w, f);
    if InstallationCompleted(w.install.value) {
      CompletedIsCleanedUp(o, w, f);
    } else {
      ActiveHonest(o, w, f);
      MetIsMet(o, w, f);
    }
    MainKeepsInv(o, w, f);
    StartFields(MainReconcile(o, w, f).w);
  }

  lemma StartFields(w: World)
    requires Inv(w)
    ensures w.install.Some? && w.install.value.status.host.Some? ==> w.install.value.status.bootTime.Some?
  {
  }

  lemma RunPhasesTrue(o: Options, w: World, list: seq<Condition>, deployment: Option<ClusterDeployment>, f: MainFaults)
    requires w.install.Some?
    requires deployment.Some? ==> w.install.value.spec.deployment.Some?
    ensures var report := RunPhases(o, w, list, deployment, f).report;
            report.Some? && (report.value.status == True ==> report == Some(MET))
  {
    hide Phases, RecordReport;
    PhaseReports(o, w, list, deployment, f);
  }

  /** Only one report says True. */
  lemma MetIsMet(o: Options, w: World, f: MainFaults)
    requires w.install.Some? && !InstallationCompleted(w.install.value)
    ensures var report := Active(o, w, f).report; report.Some? && report.value.status == True ==> report == Some(MET)
  {
    hide RunPhases, Prepare, Repair, Find, CondSync, SaysMet, SameProgress, StillReported;
    var h := Repair(w, f);
    RepairEffect(w, f);
    var p := Prepare(h.w, h.list, f);
    if !p.err {
      RunPhasesTrue(o, p.w, p.list, LookUpDeployment(w, f), f);
    }
  }

  // ----------------------------------------------------- a lost report

  /** Started, not completed, and the image is still on disk. */
  predicate Underway(w: World) {
    && w.install.Some?
    && !w.install.value.deleting && w.install.value.finalizer
    && !InstallationCompleted(w.install.value)
    && w.install.value.status.bootTime.Some?
    && ImageReady(w, w.install.value.uid)
  }

  /** While the installation is under way, a reconcile does nothing but repair a RequirementsMet that says False. */
  lemma UnderwayOnlyRepairs(o: Options, w: World, f: MainFaults)
    requires Underway(w)
    ensures MainReconcile(o, w, f).w == (if f.getInstall then w else Repair(w, f).w)
    ensures MainReconcile(o, w, f).report == None
  {
    hide Repair, AfterRestoreGate, PostCleanup, Finalize, Find;
  }

  /**
   The repair of a lost report works exactly when the stored condition says False (or needs none): after an
   undisturbed reconcile the condition says True if and only if it did not say Unknown before.
   */
  lemma RepairWorksIff(o: Options, w: World, f: MainFaults)
    requires Underway(w) && !f.getInstall && !f.repair
    requires Find(Stored(w), RequirementsMet).Some?
    ensures var v := MainReconcile(o, w, f).w;
            v.install.Some? && (SaysMet(Stored(v)) <==> !HasStatus(Stored(w), RequirementsMet, Unknown))
  {
    hide MainReconcile;
    UnderwayOnlyRepairs(o, w, f);
    var updated := Set(Stored(w), RequirementsMetCondition(MET), w.now);
    assert StatusOf(updated, RequirementsMet) == Some(True);
    SetUnchangedIff(Stored(w), RequirementsMetCondition(MET), w.now);
  }

  lemma RunPhasesLostReport(o: Options, w: World, list: seq<Condition>, deployment: Option<ClusterDeployment>,
                            f: MainFaults)
    requires w.install.Some? && Found(w, deployment) && CondSync(list, Stored(w))
    requires RunPhases(o, w, list, deployment, f).report == Some(MET) && f.report
    ensures var v := RunPhases(o, w, list, deployment, f).w;
      && v.install.Some? && Stored(v) == Stored(w)
      && v.install.value.status.host.Some?
      && ImageReady(v, v.install.value.uid)
  {
    hide Phases, CondSync, Find, InstallStep, Mirrors, MetadataComplete;
    var p := Phases(o, w, list, deployment, f);
    PhaseReports(o, w, list, deployment, f);
    PhasesReady(o, w, list, deployment, f);
    PhasesEffect(o, w, list, deployment, f);
    InstallStepCore(w.install.value, p.w.install.value, w.now);
  }

  /**
   A start whose report is lost before any earlier report was stored leaves RequirementsMet Unknown in a started
   installation, the one state that no later reconcile repairs while the image is on disk.
   */
  lemma LostReportStaysUnknown(o: Options, w: World, f: MainFaults)
    requires Inv(w) && w.install.Some? && w.install.value.status.host.None?
    requires StatusOf(Stored(w), RequirementsMet) == None || HasStatus(Stored(w), RequirementsMet, Unknown)
    requires MainReconcile(o, w, f).report == Some(MET) && f.report
    ensures var v := MainReconcile(o, w, f).w;
      && Underway(v)
      && HasStatus(Stored(v), RequirementsMet, Unknown)
      && forall g :: MainReconcile(o, v, g).w == v
  {
    hide Active, Finalize, PostCleanup, Inv, MainReconcile;
    var v := MainReconcile(o, w, f).w;
    ReachesActive(o, w, f);
    LostActive(o, w, f);
    MainKeepsInv(o, w, f);
    StartFields(v);
    forall g ensures MainReconcile(o, v, g).w == v {
      UnderwayOnlyRepairs(o, v, g);
      assert Repair(v, g).w == v;
    }
  }

  lemma ReachesActive(o: Options, w: World, f: MainFaults)
    requires Inv(w) && w.install.Some? && w.install.value.status.host.None?
    requires MainReconcile(o, w, f).report.Some?
    ensures !InstallationCompleted(w.install.value) && MainReconcile(o, w, f) == Active(o, w, f)
    ensures !w.install.value.deleting && w.install.value.finalizer
  {
    hide Active, Finalize, PostCleanup;
    FinalizeIsSilent(w, f);
  }

  lemma LostActive(o: Options, w: World, f: MainFaults)
    requires Inv(w) && w.install.Some? && w.install.value.status.host.None? && !InstallationCompleted(w.install.value)
    requires !w.install.value.deleting && w.install.value.finalizer
    requires StatusOf(Stored(w), RequirementsMet) == None || HasStatus(Stored(w), RequirementsMet, Unknown)
    requires Active(o, w, f).report == Some(MET) && f.report
    ensures var v := Active(o, w, f).w;
      && v.install.Some? && v.install.value.status.host.Some?
      && !v.install.value.deleting && v.install.value.finalizer
      && !InstallationCompleted(v.install.value)
      && ImageReady(v, v.install.value.uid)
      && HasStatus(Stored(v), RequirementsMet, Unknown)
  {
    hide RunPhases, Prepare, ReadyToBoot, Validate, ImagesStep;
    var p := Prepare(w, Stored(w), f);
    assert Repair(w, f) == Held(w, Stored(w));
    CondSyncRefl(Stored(w));
    PrepareEffect(w, Stored(w), f);
    PreparedUnknown(w, f);
    assert !p.err && Active(o, w, f) == RunPhases(o, p.w, p.list, LookUpDeployment(w, f), f);
    RunPhasesLostReport(o, p.w, p.list, LookUpDeployment(w, f), f);
    ActiveEffect(o, w, f);
    CoreFields(w.install.value, Active(o, w, f).w.install.value);
  }

  lemma PreparedUnknown(w: World, f: MainFaults)
    requires w.install.Some? && !Prepare(w, Stored(w), f).err
    requires StatusOf(Stored(w), RequirementsMet) == None || HasStatus(Stored(w), RequirementsMet, Unknown)
    ensures HasStatus(Stored(Prepare(w, Stored(w), f).w), RequirementsMet, Unknown)
  {
    hide Annotate;
    AnnotateBothTouches(w, Stored(w), f);
    var list := Initialized(Stored(w), w.now);
    assert HasStatus(list, RequirementsMet, Unknown);
  }
}
