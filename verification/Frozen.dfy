/**
 What the webhook lets through, and what follows for the life of an installation: its specification is well-formed in
 every state, it is frozen once the installation has started, and from then on the metadata names the secret that holds
 the kubeconfig of the started cluster.
 */
module Frozen {
  import opened Base
  import opened Conditions
  import opened Credentials
  import opened ImageBuild
  import opened MachineNetworks
  import opened Hub
  import opened MainReconciler
  import opened MainEffects
  import opened Monitor
  import opened MonitorEffects
  import opened Webhook
  import opened Safety
  import opened System
  import opened Identity
  import opened Guarantees

  // ---------------------------------------------------------- admission

  /** Everything in a specification but the metadata. */
  predicate SameFields(a: Spec, b: Spec) {
    && a.deployment == b.deployment && a.host == b.host
    && a.machineNetwork == b.machineNetwork && a.machineNetworks == b.machineNetworks
    && a.proxy == b.proxy && a.sshKeyValid == b.sshKeyValid && a.hostnameValid == b.hostnameValid
    && a.rest == b.rest
  }

  /** Key and hostname are valid, every network parses, and a proxy comes with a network to check hosts against. */
  predicate Wellformed(s: Spec) {
    && s.sshKeyValid && s.hostnameValid
    && (s.machineNetwork.text == "" || s.machineNetwork.prefix.Some?)
    && (forall k :: 0 <= k < |s.machineNetworks| ==>
          s.machineNetworks[k].text != "" && s.machineNetworks[k].prefix.Some?)
    && (s.proxy ==> EffectiveNetworks(s.machineNetwork, s.machineNetworks) != Some([]))
  }

  lemma ValidIff(s: Spec)
    ensures Validate(s) <==> Wellformed(s)
  {
    if Wellformed(s) {
      forall n | n in s.machineNetworks ensures n.text != "" && n.prefix.Some? {
        var k :| 0 <= k < |s.machineNetworks| && s.machineNetworks[k] == n;
      }
    }
  }

  /** An update is admitted exactly when it is well-formed and, after the start, changes the metadata at most. */
  lemma UpdateAdmittedIff(before: Install, after: Install)
    ensures ValidateUpdate(before, after) <==>
              Wellformed(after.spec) && (before.status.host.Some? ==> SameFields(before.spec, after.spec))
  {
    ValidIff(after.spec);
  }

  /** A new object is admitted exactly when it is well-formed. */
  lemma CreationAdmittedIff(i: Install)
    ensures ValidateCreate(i) <==> Wellformed(i.spec)
  {
    ValidIff(i.spec);
  }

  // --------------------------------------------------------------- steps

  /** What a step keeps of an installation that is there before and after it. */
  predicate SpecKept(a: Install, b: Install) {
    && SameFields(a.spec, b.spec)
    && (a.status.host.Some? ==> b.status.host == a.status.host)
  }

  lemma ActiveKeepsSpec(o: Options, w: World, f: MainFaults)
    requires w.install.Some? && !InstallationCompleted(w.install.value)
    ensures var v := Active(o, w, f).w; v.install.Some? && SpecKept(w.install.value, v.install.value)
  {
    hide Active, ReadyToBoot, Find, SameProgress, Filled, StillReported, SaysMet, AllReported, ImagesStep;
    ActiveEffect(o, w, f);
    CoreFields(w.install.value, Active(o, w, f).w.install.value);
  }

  lemma MainKeepsSpec(o: Options, w: World, f: MainFaults)
    ensures var v := MainReconcile(o, w, f).w;
      v.uids == w.uids
      && (v.install.Some? ==>
            && w.install.Some? && v.install.value.uid == w.install.value.uid
            && SpecKept(w.install.value, v.install.value))
  {
    hide Finalize, Active, PostCleanup, Find, ImagesShrink;
    if w.install.Some? && !f.getInstall && (w.install.value.deleting || w.install.value.finalizer) {
      if w.install.value.deleting {
        FinalizeEffect(w, f);
      } else if InstallationCompleted(w.install.value) {
        CompletedIsCleanedUp(o, w, f);
        PostCleanupEffect(w, f);
      } else {
        ActiveKeepsSpec(o, w, f);
        ActiveKeepsUid(o, w, f);
      }
    }
  }

  lemma ActiveKeepsUid(o: Options, w: World, f: MainFaults)
    requires w.install.Some? && !InstallationCompleted(w.install.value)
    ensures var v := Active(o, w, f).w;
            v.install.Some? && v.install.value.uid == w.install.value.uid && v.uids == w.uids
  {
    hide Active, ReadyToBoot, Find, SameProgress, Filled, StillReported, SaysMet, AllReported, ImagesStep;
    ActiveEffect(o, w, f);
    CoreFields(w.install.value, Active(o, w, f).w.install.value);
  }

  lemma WatchKeepsSpec(o: Options, w: World, f: MonitorFaults)
    ensures var v := MonitorReconcile(o, w, f).w;
      v.uids == w.uids
      && (v.install.Some? ==> w.install.Some? && v.install.value == w.install.value.(status := v.install.value.status)
                              && SpecKept(w.install.value, v.install.value))
  {
    if w.install.Some? {
      hide MonitorReconcile, Recordable, Find, ImagesShrink;
      MonitorEffect(o, w, f);
    }
  }

  // ----------------------------------------------------- well-formedness

  predicate WellformedWorld(w: World) {
    w.install.Some? ==> Wellformed(w.install.value.spec)
  }

  lemma SameFieldsWellformed(a: Spec, b: Spec)
    requires SameFields(a, b)
    ensures Wellformed(a) <==> Wellformed(b)
  {
  }

  lemma StepKeepsWellformed(o: Options, w: World, e: Event)
    requires WellformedWorld(w) && Enabled(w, e)
    ensures WellformedWorld(Apply(o, w, e))
  {
    hide MainReconcile, MonitorReconcile, Wellformed, Validate;
    var v := Apply(o, w, e);
    match e {
      case Main(f) =>
        MainKeepsSpec(o, w, f);
        if v.install.Some? {
          SameFieldsWellformed(w.install.value.spec, v.install.value.spec);
        }
      case Watch(f) => WatchKeepsSpec(o, w, f);
      case Create(i) => CreationAdmittedIff(i);
      case RestoreObject(i) => CreationAdmittedIff(i);
      case EditSpec(s) => UpdateAdmittedIff(w.install.value, w.install.value.(spec := s));
      case _ =>
    }
  }

  /** In every state of every run, restores included, the specification is well-formed. */
  lemma {:induction false} SpecStaysWellformed(o: Options, w: World, run: seq<Event>)
    requires WellformedWorld(w) && Possible(o, w, run)
    ensures WellformedWorld(After(o, w, run))
    decreases |run|
  {
    hide WellformedWorld, Apply, Enabled;
    if run != [] {
      StepKeepsWellformed(o, w, run[0]);
      SpecStaysWellformed(o, Apply(o, w, run[0]), run[1..]);
    }
  }

  // -------------------------------------------------------------- frozen

  /** The object `u` is gone for good, or it has started and its specification has these fields. */
  predicate FrozenAs(w: World, u: string, s: Spec) {
    && u in w.uids
    && (w.install.Some? && w.install.value.uid == u ==>
          w.install.value.status.host.Some? && SameFields(w.install.value.spec, s))
  }

  lemma StepKeepsFrozen(o: Options, w: World, e: Event, u: string, s: Spec)
    requires Enabled(w, e) && FrozenAs(w, u, s)
    ensures FrozenAs(Apply(o, w, e), u, s)
  {
    hide MainReconcile, MonitorReconcile, Wellformed, Validate, ValidateUpdate;
    match e {
      case Main(f) => MainKeepsSpec(o, w, f);
      case Watch(f) => WatchKeepsSpec(o, w, f);
      case EditSpec(t) => UpdateAdmittedIff(w.install.value, w.install.value.(spec := t));
      case _ =>
    }
  }

  /**
   Once an installation has started, deployment, host, networks, proxy and all else that users specify stay as they
   are in every later state of its life, whatever users, controllers, surroundings and restores do.
   */
  lemma {:induction false} SpecIsFrozen(o: Options, w: World, run: seq<Event>, u: string, s: Spec)
    requires Possible(o, w, run) && FrozenAs(w, u, s)
    ensures FrozenAs(After(o, w, run), u, s)
    decreases |run|
  {
    hide FrozenAs, Apply, Enabled;
    if run != [] {
      StepKeepsFrozen(o, w, run[0], u, s);
      SpecIsFrozen(o, Apply(o, w, run[0]), run[1..], u, s);
    }
  }

  // ------------------------------------------- the way to the kubeconfig

  /** The metadata has its IDs and names the two secrets of the deployment. */
  predicate Names(m: Option<Metadata>, deployment: string) {
    && m.Some? && m.value.clusterId != "" && m.value.infraId != ""
    && m.value.kubeconfigSecret == Own(SecretName(AdminKubeconfig, deployment))
    && m.value.passwordSecret == Some(Own(SecretName(AdminPassword, deployment)))
  }

  /** The object `u` is gone for good, or it has started for this deployment with this metadata. */
  predicate NamedBy(w: World, u: string, deployment: string, m: Option<Metadata>) {
    && u in w.uids
    && (w.install.Some? && w.install.value.uid == u ==>
          && w.install.value.status.host.Some?
          && w.install.value.spec.deployment == Some(deployment) && w.install.value.spec.metadata == m)
  }

  lemma ActiveKeepsMetadata(o: Options, w: World, f: MainFaults)
    requires w.install.Some? && !InstallationCompleted(w.install.value) && w.install.value.spec.deployment.Some?
    requires Names(w.install.value.spec.metadata, w.install.value.spec.deployment.value)
    ensures var v := Active(o, w, f).w;
            v.install.Some? && v.install.value.spec.metadata == w.install.value.spec.metadata
  {
    assert MetadataComplete(w.install.value.spec.metadata, w.install.value.spec.deployment.value);
    hide Active, BuildOutcome, MetadataComplete, NewMetadata, Names, ReadyToBoot, Find, Core;
    ActiveEffect(o, w, f);
    ActiveIdentity(o, w, f);
  }

  lemma MainKeepsMetadata(o: Options, w: World, f: MainFaults)
    requires w.install.Some? && w.install.value.spec.deployment.Some?
    requires Names(w.install.value.spec.metadata, w.install.value.spec.deployment.value)
    ensures var v := MainReconcile(o, w, f).w;
            v.install.Some? ==> v.install.value.spec.metadata == w.install.value.spec.metadata
  {
    hide Finalize, Active, PostCleanup, Find, RemovalStep, Names;
    var i := w.install.value;
    if f.getInstall || (!i.deleting && !i.finalizer) {
    } else if i.deleting {
      FinalizeEffect(w, f);
    } else if InstallationCompleted(i) {
      CompletedIsCleanedUp(o, w, f);
      PostCleanupEffect(w, f);
    } else {
      ActiveKeepsMetadata(o, w, f);
    }
  }

  lemma StepKeepsNames(o: Options, w: World, e: Event, u: string, deployment: string, m: Option<Metadata>)
    requires Enabled(w, e) && NamedBy(w, u, deployment, m) && Names(m, deployment)
    ensures NamedBy(Apply(o, w, e), u, deployment, m)
  {
    hide MainReconcile, MonitorReconcile, Wellformed, Validate, ValidateUpdate, Names;
    match e {
      case Main(f) =>
        MainKeepsSpec(o, w, f);
        if w.install.Some? && w.install.value.uid == u {
          MainKeepsMetadata(o, w, f);
        }
      case Watch(f) => WatchKeepsSpec(o, w, f);
      case EditSpec(t) => UpdateAdmittedIff(w.install.value, w.install.value.(spec := t));
      case _ =>
    }
  }

  lemma {:induction false} NamesStay(o: Options, w: World, run: seq<Event>, u: string, deployment: string,
                                     m: Option<Metadata>)
    requires GuardedRun(o, w, run) && NamedBy(w, u, deployment, m) && Names(m, deployment)
    ensures NamedBy(After(o, w, run), u, deployment, m)
    decreases |run|
  {
    hide NamedBy, Apply, Enabled, Guarded, Names;
    if run != [] {
      StepKeepsNames(o, w, run[0], u, deployment, m);
      NamesStay(o, Apply(o, w, run[0]), run[1..], u, deployment, m);
    }
  }

  lemma SameKubeconfig(s: Secrets, t: Secrets, deployment: string)
    requires StoredOk(s, deployment) && IdentityOf(s, deployment).Some? && SameIdentity(s, t, deployment)
    ensures var n := SecretName(AdminKubeconfig, deployment);
            Content(s, n).Some? && Content(t, n) == Content(s, n)
  {
  }

  /**
   Over every guarded run from a started installation with a complete identity: as long as the object exists, its
   metadata names the admin kubeconfig of its deployment, and that secret holds the kubeconfig it held at the start.
   The monitor can always ask the cluster.
   */
  lemma KubeconfigStaysInReach(o: Options, w: World, run: seq<Event>, u: string, deployment: string,
                               m: Option<Metadata>)
    requires StoredSound(w) && GuardedRun(o, w, run)
    requires NamedBy(w, u, deployment, m) && Names(m, deployment) && IdentityOf(w.secrets, deployment).Some?
    ensures var v := After(o, w, run);
      v.install.Some? && v.install.value.uid == u ==>
        && KubeconfigAt(v.secrets, v.install.value.spec.metadata)
        && var n := SecretName(AdminKubeconfig, deployment);
           v.install.value.spec.metadata.value.kubeconfigSecret == Own(n)
           && Content(v.secrets, n) == Content(w.secrets, n)
  {
    hide GuardedRun, After, StoredOk, SameIdentity, IdentityOf, Content;
    NamesStay(o, w, run, u, deployment, m);
    IdentityIsForGood(o, w, run);
    SameKubeconfig(w.secrets, After(o, w, run).secrets, deployment);
  }

  /** A guarded start brings the installation into such a state, unless an earlier build left an empty manifest. */
  lemma StartPutsItInReach(o: Options, w: World, f: MainFaults)
    requires Inv(w) && StoredSound(w) && SafeCall(w, f.build.removal)
    requires w.install.Some? && MainReconcile(o, w, f).w.install.Some? && NewlyStarted(w, MainReconcile(o, w, f).w)
    ensures var v := MainReconcile(o, w, f).w; var i := v.install.value;
      && i.spec.deployment.Some? && Names(i.spec.metadata, i.spec.deployment.value)
      && NamedBy(v, i.uid, i.spec.deployment.value, i.spec.metadata)
      && i.uid in v.dirs
      && (IdentityOf(v.secrets, i.spec.deployment.value).Some? <==> v.dirs[i.uid].manifest != Some(Empty))
  {
    hide MainReconcile, StoredSound, SafeCall, ReadyToBoot, IdentityOf, Mirrors, SameKernel, Coherent, Validate, Find;
    MainKeepsInv(o, w, f);
    StartNeedsReadiness(o, w, Main(f));
    StartedImageCarriesIff(o, w, f);
    MainKeepsSpec(o, w, f);
    ReadyNames(o, MainReconcile(o, w, f).w);
  }

  lemma ReadyNames(o: Options, w: World)
    requires w.install.Some? && w.install.value.spec.deployment.Some?
    requires ReadyToBoot(o, w, w.install.value.spec.deployment.value)
    ensures Names(w.install.value.spec.metadata, w.install.value.spec.deployment.value)
  {
  }
}
