/** The controllers' own patches and the admission webhook. */
module Admission {
  import opened Base
  import opened Conditions
  import opened Hub
  import opened MainReconciler
  import opened MainEffects
  import opened Monitor
  import opened MonitorEffects
  import opened Webhook
  import opened Safety

  /** One patch: of the status, or of the finalizer, the annotations and the metadata. */
  predicate OnePatch(a: Install, b: Install) {
    || b == a.(status := b.status)
    || b == a.(finalizer := b.finalizer, restoreStatus := b.restoreStatus, postCleanup := b.postCleanup,
               spec := a.spec.(metadata := b.spec.metadata))
  }

  /** A sequence of versions of the stored object, each one patch away from the one before it. */
  predicate Patches(i: Install, versions: seq<Install>)
    decreases |versions|
  {
    versions == [] || (OnePatch(i, versions[0]) && Patches(versions[0], versions[1..]))
  }

  function Latest(i: Install, versions: seq<Install>): Install {
    if versions == [] then i else versions[|versions| - 1]
  }

  lemma {:induction false} PatchesConcat(i: Install, a: seq<Install>, b: seq<Install>)
    requires Patches(i, a) && Patches(Latest(i, a), b)
    ensures Patches(i, a + b) && Latest(i, a + b) == Latest(Latest(i, a), b)
    decreases |a|
  {
    if a == [] {
      assert a + b == b;
    } else {
      assert (a + b)[0] == a[0] && (a + b)[1..] == a[1..] + b;
      PatchesConcat(a[0], a[1..], b);
    }
  }

  lemma OnePatchMore(i: Install, a: seq<Install>, b: Install)
    requires Patches(i, a) && OnePatch(Latest(i, a), b)
    ensures Patches(i, a + [b]) && Latest(i, a + [b]) == b
  {
    assert [b][1..] == [];
    PatchesConcat(i, a, [b]);
  }

  // ------------------------------------------------ the versions of one call

  /** Metadata, start and report. */
  function PhaseVersions(o: Options, w: World, list: seq<Condition>, deployment: Option<ClusterDeployment>,
                         f: MainFaults): seq<Install>
    requires w.install.Some?
    requires deployment.Some? ==> w.install.value.spec.deployment.Some?
  {
    [BeforeImage(w, list, deployment, f).w.install.value,
     Phases(o, w, list, deployment, f).w.install.value,
     RunPhases(o, w, list, deployment, f).w.install.value]
  }

  /** The two annotations and the initial conditions. */
  function PrepareVersions(w: World, list: seq<Condition>, f: MainFaults): seq<Install>
    requires w.install.Some?
  {
    [Annotate(w, list, true, w.install.value.postCleanup, f.restoreStatus).w.install.value,
     AnnotateBoth(w, list, f).w.install.value,
     Prepare(w, list, f).w.install.value]
  }

  function GateVersions(o: Options, w: World, list: seq<Condition>, deployment: Option<ClusterDeployment>,
                        f: MainFaults): seq<Install>
    requires w.install.Some?
    requires deployment.Some? ==> w.install.value.spec.deployment.Some?
  {
    var p := Prepare(w, list, f);
    PrepareVersions(w, list, f) + if p.err then [] else PhaseVersions(o, p.w, p.list, deployment, f)
  }

  /** The repair first, then the rest. */
  function ActiveVersions(o: Options, w: World, f: MainFaults): seq<Install>
    requires w.install.Some?
  {
    var i := w.install.value;
    if InstallationCompleted(i) then []
    else
      var h := Repair(w, f);
      [h.w.install.value] +
      if (i.status.bootTime.Some? && ImageReady(w, i.uid)) || BeingRestored(i) then []
      else GateVersions(o, h.w, h.list, LookUpDeployment(w, f), f)
  }

  /** Every version of the installation that a call stores, in order; a version may repeat when nothing is patched. */
  function MainVersions(o: Options, w: World, f: MainFaults): seq<Install>
    requires w.install.Some?
  {
    var i := w.install.value;
    if f.getInstall then []
    else if i.deleting then if Finalize(w, f).w.install == w.install then [] else [i.(finalizer := false)]
    else if !i.finalizer then [MainReconcile(o, w, f).w.install.value]
    else ActiveVersions(o, w, f)
  }

  // ------------------------------------------------------------- the proof

  lemma MetadataPatch(a: Install, b: Install)
    requires b == WithMetadata(a, b.spec.metadata)
    ensures OnePatch(a, b)
  {
  }

  lemma StartPatch(w: World, v: World)
    requires w.install.Some? && v.install.Some? && MayStart(w, v)
    ensures OnePatch(w.install.value, v.install.value)
  {
  }

  lemma ConditionsPatch(w: World, v: World)
    requires w.install.Some? && v.install.Some? && v == PatchConditions(w, Stored(v))
    ensures OnePatch(w.install.value, v.install.value)
  {
  }

  lemma ThreePatches(i: Install, a: Install, b: Install, c: Install)
    requires OnePatch(i, a) && OnePatch(a, b) && OnePatch(b, c)
    ensures Patches(i, [a, b, c]) && Latest(i, [a, b, c]) == c
  {
    hide OnePatch;
    assert [a, b, c][1..] == [b, c] && [b, c][1..] == [c] && [c][1..] == [];
    assert Patches(b, [c]);
    assert Patches(a, [b, c]);
  }

  lemma BuildingPatches(o: Options, w: World, list: seq<Condition>, deployment: Option<ClusterDeployment>,
                        f: MainFaults)
    requires w.install.Some?
    requires deployment.Some? ==> w.install.value.spec.deployment.Some?
    ensures var c := BeforeImage(w, list, deployment, f); var p := Phases(o, w, list, deployment, f);
            OnePatch(w.install.value, c.w.install.value) && OnePatch(c.w.install.value, p.w.install.value)
  {
    hide BeforeImage, ImageAndHost, OnePatch, MayStart, BuildFor, AfterBuild, ImagesStep, MetadataComplete;
    var c := BeforeImage(w, list, deployment, f);
    BeforeImageEffect(w, list, deployment, f);
    MetadataPatch(w.install.value, c.w.install.value);
    NoPatch(c.w.install.value);
    if c.Proceed? {
      ImageAndHostEffect(o, c.w, c.list, w.install.value.spec.deployment.value, deployment.value, f);
      StartPatch(c.w, Phases(o, w, list, deployment, f).w);
    }
  }

  lemma PhasesArePatches(o: Options, w: World, list: seq<Condition>, deployment: Option<ClusterDeployment>,
                         f: MainFaults)
    requires w.install.Some? && Found(w, deployment) && CondSync(list, Stored(w))
    ensures var i := w.install.value; var vs := PhaseVersions(o, w, list, deployment, f);
            Patches(i, vs) && Latest(i, vs) == RunPhases(o, w, list, deployment, f).w.install.value
  {
    hide BeforeImage, Phases, RecordReport, OnePatch, Patches, CondSync, Core, InstallStep, ImagesStep, SameProgress,
         StillReported, StatusOf, Find;
    var p := Phases(o, w, list, deployment, f);
    var report := if p.Halt? then p.report else MET;
    BuildingPatches(o, w, list, deployment, f);
    PhasesEffect(o, w, list, deployment, f);
    InstallStepCore(w.install.value, p.w.install.value, w.now);
    CondSyncRefl(Stored(w));
    RecordReportEffect(p.w, p.list, report, f.report);
    var v := RecordReport(p.w, p.list, report, f.report).w;
    ConditionsPatch(p.w, v);
    var b := BeforeImage(w, list, deployment, f);
    ThreePatches(w.install.value, b.w.install.value, p.w.install.value, v.install.value);
  }

  lemma NoPatch(i: Install)
    ensures OnePatch(i, i)
  {
  }

  lemma AnnotationPatch(w: World, list: seq<Condition>, restoreStatus: bool, postCleanup: bool, fault: WriteFault)
    requires w.install.Some?
    ensures OnePatch(w.install.value, Annotate(w, list, restoreStatus, postCleanup, fault).w.install.value)
  {
  }

  lemma PreparationsArePatches(w: World, list: seq<Condition>, f: MainFaults)
    requires w.install.Some? && CondSync(list, Stored(w))
    ensures var i := w.install.value; var vs := PrepareVersions(w, list, f);
            Patches(i, vs) && Latest(i, vs) == Prepare(w, list, f).w.install.value
  {
    hide Annotate, InitializeStatus, OnePatch, Patches, CondSync, Touched, Initialised;
    var a := Annotate(w, list, true, w.install.value.postCleanup, f.restoreStatus);
    var b := AnnotateBoth(w, list, f);
    var p := Prepare(w, list, f);
    AnnotationPatch(w, list, true, w.install.value.postCleanup, f.restoreStatus);
    AnnotationPatch(a.w, a.list, true, true, f.postCleanup);
    NoPatch(a.w.install.value);
    NoPatch(b.w.install.value);
    AnnotateBothTouches(w, list, f);
    CondSyncRefl(Stored(w));
    if !b.err {
      InitializeStatusEffect(b.w, b.list, f.initialize);
      ConditionsPatch(b.w, p.w);
    }
    ThreePatches(w.install.value, a.w.install.value, b.w.install.value, p.w.install.value);
  }

  lemma GateIsPatches(o: Options, w: World, list: seq<Condition>, deployment: Option<ClusterDeployment>, f: MainFaults)
    requires w.install.Some? && Found(w, deployment) && CondSync(list, Stored(w))
    ensures var i := w.install.value; var vs := GateVersions(o, w, list, deployment, f);
            Patches(i, vs) && Latest(i, vs) == AfterRestoreGate(o, w, list, deployment, f).w.install.value
  {
    hide Prepare, RunPhases, PrepareVersions, PhaseVersions, Patches, CondSync, Touched, SaysMet, Filled,
         StillReported, AllReported;
    var i := w.install.value;
    var p := Prepare(w, list, f);
    PreparationsArePatches(w, list, f);
    PrepareEffect(w, list, f);
    TouchedBoot(w, p.w);
    if p.err {
      assert PrepareVersions(w, list, f) + [] == PrepareVersions(w, list, f);
    } else {
      PhasesArePatches(o, p.w, p.list, deployment, f);
      PatchesConcat(i, PrepareVersions(w, list, f), PhaseVersions(o, p.w, p.list, deployment, f));
    }
  }

  lemma ActiveIsPatches(o: Options, w: World, f: MainFaults)
    requires w.install.Some? && !InstallationCompleted(w.install.value)
    ensures var i := w.install.value; var vs := ActiveVersions(o, w, f);
            Patches(i, vs) && Latest(i, vs) == Active(o, w, f).w.install.value
  {
    hide Repair, AfterRestoreGate, GateVersions, Patches, CondSync, Find, SaysMet, SameProgress, StillReported,
         BeingRestored, ImageReady;
    var i := w.install.value;
    var h := Repair(w, f);
    RepairEffect(w, f);
    ConditionsPatch(w, h.w);
    assert Patches(i, []) by { NoPatches(i); }
    OnePatchMore(i, [], h.w.install.value);
    assert [] + [h.w.install.value] == [h.w.install.value];
    if (i.status.bootTime.Some? && ImageReady(w, i.uid)) || BeingRestored(i) {
      assert [h.w.install.value] + [] == [h.w.install.value];
    } else {
      var d := LookUpDeployment(w, f);
      GateIsPatches(o, h.w, h.list, d, f);
      PatchesConcat(i, [h.w.install.value], GateVersions(o, h.w, h.list, d, f));
    }
  }

  lemma NoPatches(i: Install)
    ensures Patches(i, [])
  {
  }

  lemma FinalizeIsPatches(w: World, f: MainFaults)
    requires w.install.Some?
    ensures var i := w.install.value; var v := Finalize(w, f).w;
            var vs := if v.install == w.install then [] else [i.(finalizer := false)];
            Patches(i, vs) && (v.install.Some? ==> Latest(i, vs) == v.install.value)
  {
    hide Finalize, OnePatch, Patches, ImagesShrink;
    var i := w.install.value;
    FinalizeEffect(w, f);
    NoPatches(i);
    SinglePatch(i, i.(finalizer := false));
  }

  lemma SinglePatch(i: Install, b: Install)
    ensures OnePatch(i, b) ==> Patches(i, [b])
    ensures OnePatch(i, i.(finalizer := b.finalizer))
  {
    assert [b][1..] == [];
  }

  /** The versions follow each other by single patches and end with the object that the call leaves, if any. */
  lemma MainIsPatches(o: Options, w: World, f: MainFaults)
    requires w.install.Some?
    ensures var i := w.install.value; var vs := MainVersions(o, w, f); var v := MainReconcile(o, w, f).w;
            Patches(i, vs) && (v.install.Some? ==> Latest(i, vs) == v.install.value)
  {
    hide Finalize, Active, ActiveVersions, PostCleanup, InstallationCompleted, Patches, OnePatch, RemovalStep;
    var i := w.install.value;
    NoPatches(i);
    if i.deleting {
      FinalizeIsPatches(w, f);
    } else if !i.finalizer {
      SinglePatch(i, i);
      SinglePatch(i, i.(finalizer := true));
      NoPatch(i);
    } else if InstallationCompleted(i) {
      CompletedIsCleanedUp(o, w, f);
      PostCleanupEffect(w, f);
      NoVersions(o, w, f);
    } else {
      ActiveIsPatches(o, w, f);
    }
  }

  lemma NoVersions(o: Options, w: World, f: MainFaults)
    requires w.install.Some? && InstallationCompleted(w.install.value)
    ensures ActiveVersions(o, w, f) == []
  {
    hide GateVersions, Repair;
  }

  // ----------------------------------------------------------- admission

  lemma PatchIsAdmitted(a: Install, b: Install)
    requires OnePatch(a, b) && Validate(a.spec)
    ensures ValidateUpdate(a, b) && Validate(b.spec)
  {
    hide Validate;
    assert UserSpec(a.spec) == UserSpec(b.spec);
    ValidateIgnoresMetadata(a.spec, b.spec);
  }

  lemma {:induction false} PatchesAreAdmitted(i: Install, versions: seq<Install>, k: nat)
    requires Patches(i, versions) && Validate(i.spec) && k < |versions|
    ensures ValidateUpdate(if k == 0 then i else versions[k - 1], versions[k])
    decreases |versions|
  {
    hide OnePatch, Validate, ValidateUpdate;
    PatchIsAdmitted(i, versions[0]);
    if k > 0 {
      PatchesAreAdmitted(versions[0], versions[1..], k - 1);
    }
  }

  /**
   Every single patch of a call of the main controller passes the webhook: the specification of a started installation
   is frozen for users, and the controller's own writes, the metadata included, still go through.
   */
  lemma OwnPatchesAreAdmitted(o: Options, w: World, f: MainFaults, k: nat)
    requires Inv(w) && w.install.Some? && k < |MainVersions(o, w, f)|
    ensures var vs := MainVersions(o, w, f);
            ValidateUpdate(if k == 0 then w.install.value else vs[k - 1], vs[k])
  {
    hide MainVersions, MainReconcile, Patches, ValidateUpdate;
    MainIsPatches(o, w, f);
    ValidSpec(w);
    PatchesAreAdmitted(w.install.value, MainVersions(o, w, f), k);
  }

  lemma ValidSpec(w: World)
    requires Inv(w) && w.install.Some?
    ensures Validate(w.install.value.spec)
  {
  }

  /** The one patch of a call of the monitor passes the webhook as well. */
  lemma MonitorPatchIsAdmitted(o: Options, w: World, f: MonitorFaults)
    requires Inv(w) && w.install.Some?
    ensures var v := MonitorReconcile(o, w, f).w;
      && v.install.Some? && OnePatch(w.install.value, v.install.value)
      && ValidateUpdate(w.install.value, v.install.value)
  {
    hide MonitorReconcile, Inv, Recordable, ImagesShrink, Find, ValidateUpdate;
    MonitorEffect(o, w, f);
    ValidSpec(w);
    PatchIsAdmitted(w.install.value, MonitorReconcile(o, w, f).w.install.value);
  }
}
