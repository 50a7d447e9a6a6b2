/**
 The main controller as code: controllers/imageclusterinstall_controller.go, statement by statement, each method
 proved to do what the step function of the same part says.
 */
module MainSteps {
  import opened Base
  import opened Conditions
  import opened Credentials
  import opened ImageBuild
  import opened MachineNetworks
  import opened Hub
  import opened DataImages
  import opened MainReconciler
  import InfraId

  /** One call of Reconcile: the client, the condition list in memory, and the condition to be recorded at the end. */
  class Reconciliation {
    const c: Cluster
    const conditions: ConditionList
    var cond: Report

    constructor (c: Cluster, conditions: ConditionList)
      ensures this.c == c && this.conditions == conditions
      ensures cond == Report(False, UnknownReason, UnknownMessage)
    {
      this.c, this.conditions := c, conditions;
      cond := Report(False, UnknownReason, UnknownMessage);
    }

    method PatchStatusConditions()
      requires c.install.Some?
      modifies c`install
      ensures c.State() == PatchConditions(old(c.State()), conditions.items)
    {
      c.install := Some(c.install.value.(status := c.install.value.status.(conditions := conditions.items)));
    }

    method SetRequirementsMet(r: Report, fails: bool)
      requires c.install.Some?
      modifies c, conditions
      ensures Held(c.State(), conditions.items) == RecordReport(old(c.State()), old(conditions.items), r, fails)
    {
      var updated := conditions.SetClusterInstallCondition(RequirementsMetCondition(r), c.now);
      if !updated {
        return;
      }
      if !fails {
        PatchStatusConditions();
      }
    }

    // ------------------------------------------------------- finalizer

    /** Creates the directories, then removes the whole tree under the lock. */
    method RemoveFiles(uid: string, f: MainFaults) returns (requeue: Requeue, err: bool)
      modifies c`dirs
      ensures err == (f.dirs || f.lock || (!f.busy && f.removal.Kept?))
      ensures requeue == if !err && f.busy then RequeueAfter(5) else NoRequeue
      ensures var d := if uid in old(c.dirs) then old(c.dirs)[uid] else EMPTY_DIR;
        c.dirs == if f.dirs then old(c.dirs)
                  else if f.lock || f.busy then old(c.dirs)[uid := d]
                  else if f.removal.Kept? then old(c.dirs)[uid := AfterRemoval(d, f.removal)]
                  else old(c.dirs) - {uid}
    {
      if f.dirs {
        return NoRequeue, true;
      }
      if uid !in c.dirs {
        c.dirs := c.dirs[uid := EMPTY_DIR];
      }
      assert c.dirs == old(c.dirs)[uid := c.dirs[uid]];
      if f.lock {
        return NoRequeue, true;
      }
      if f.busy {
        return RequeueAfter(5), false;
      }
      if f.removal.Kept? {
        c.dirs := c.dirs[uid := AfterRemoval(c.dirs[uid], f.removal)];
        return NoRequeue, true;
      }
      c.dirs := c.dirs - {uid};
      return NoRequeue, false;
    }

    method FinalizeDeleted(f: MainFaults) returns (requeue: Requeue, err: bool)
      requires c.install.Some?
      modifies c
      ensures Stop(c.State(), requeue, err) == Finalize(old(c.State()), f)
    {
      hide RemoveDataImage, AfterRemoval;
      var ici := c.install.value;
      requeue, err := RemoveFiles(ici.uid, f);
      if err || requeue != NoRequeue {
        return;
      }
      if ici.spec.host.Some? {
        var image;
        image, err := Remove(c, ici.spec.host.value, f.imageRemoval);
        if err {
          return NoRequeue, true;
        }
        if image.Some? {
          return RequeueAfter(60), false;
        }
      }
      if !ici.finalizer {
        return NoRequeue, false;
      }
      if f.dropFinalizer == Lost {
        return NoRequeue, true;
      }
      c.install := if ici.otherFinalizers then Some(ici.(finalizer := false)) else None;
      return NoRequeue, f.dropFinalizer != Fine;
    }

    method HandleFinalizer(f: MainFaults) returns (requeue: Requeue, stop: bool, err: bool)
      requires c.install.Some?
      modifies c
      ensures stop <==> old(c.install.value.deleting) || !old(c.install.value.finalizer)
      ensures !stop ==> c.State() == old(c.State()) && requeue == NoRequeue && !err
      ensures old(c.install.value.deleting) ==> Stop(c.State(), requeue, err) == Finalize(old(c.State()), f)
      ensures stop && !old(c.install.value.deleting) ==>
        && requeue == RequeueNow && err == (f.addFinalizer != Fine)
        && c.State() == if f.addFinalizer == Lost then old(c.State())
                        else old(c.State()).(install := Some(old(c.install.value).(finalizer := true)))
    {
      hide Finalize;
      var ici := c.install.value;
      if !ici.deleting {
        if !ici.finalizer {
          if f.addFinalizer == Lost {
            return RequeueNow, true, true;
          }
          c.install := Some(ici.(finalizer := true));
          return RequeueNow, true, f.addFinalizer != Fine;
        }
        return NoRequeue, false, false;
      }
      requeue, err := FinalizeDeleted(f);
      stop := true;
    }

    method HandlePostCleanup(f: MainFaults) returns (requeue: Requeue, err: bool)
      requires c.install.Some?
      modifies c
      ensures Stop(c.State(), requeue, err) == PostCleanup(old(c.State()), f)
    {
      hide RemoveDataImage;
      var ici := c.install.value;
      if !ici.postCleanup || ici.spec.host.None? {
        return NoRequeue, false;
      }
      var ref := ici.spec.host.value;
      var _, removeErr := Remove(c, ref, f.imageRemoval);
      if removeErr || f.recheckImage {
        return NoRequeue, true;
      }
      if ref in c.images {
        return RequeueAfter(60), false;
      }
      return NoRequeue, false;
    }

    // -------------------------------------------------------- phases

    /** The host is patched only when cleaning is not disabled yet. */
    method DisableCleaning(f: MainFaults) returns (bmh: Host, err: bool)
      requires HostAt(c.State())
      modifies c`hosts
      ensures err <==> f.cleaning != Fine && !HostOf(old(c.State())).cleaningDisabled
      ensures bmh == HostOf(old(c.State())).(cleaningDisabled := true)
      ensures c.State() == if HostOf(old(c.State())).cleaningDisabled || f.cleaning == Lost then old(c.State())
                           else PatchHost(old(c.State()), bmh)
    {
      var ref := c.install.value.spec.host.value;
      bmh := c.hosts[ref];
      if !bmh.cleaningDisabled {
        bmh := bmh.(cleaningDisabled := true);
        if f.cleaning != Lost {
          c.hosts := c.hosts[ref := bmh];
        }
        return bmh, f.cleaning != Fine;
      }
      err := false;
    }

    /** What is still missing before the host can be looked at. */
    method MissingReference(cd: Option<ClusterDeployment>, f: MainFaults) returns (missing: Option<nat>)
      requires c.install.Some?
      ensures var spec := c.install.value.spec;
        && (missing == Some(10) <==> cd.None? && (spec.deployment.None? || spec.deployment.value == ""))
        && (missing == Some(11) <==> cd.None? && spec.deployment.Some? && spec.deployment.value != "")
        && (missing == Some(12) <==> cd.Some? && (spec.host.None? || spec.host.value.name == ""))
        && (missing == Some(13) <==> cd.Some? && spec.host.Some? && spec.host.value.name != ""
                                     && (f.getHost || spec.host.value !in c.hosts))
        && (missing.Some? ==> 10 <= missing.value <= 13)
    {
      var spec := c.install.value.spec;
      if cd.None? {
        if spec.deployment.None? || spec.deployment.value == "" {
          return Some(10);
        }
        return Some(11);
      }
      if spec.host.None? || spec.host.value.name == "" {
        return Some(12);
      }
      if f.getHost || spec.host.value !in c.hosts {
        return Some(13);
      }
      return None;
    }

    method ValidateConfiguration(cd: Option<ClusterDeployment>, f: MainFaults) returns (bmh: Option<Host>, err: bool)
      requires c.install.Some? && cond == Report(False, ConfigurationPending, UnknownMessage)
      modifies this, c
      ensures var p := Configuration(old(c.State()), conditions.items, cd, f);
        && c.State() == p.w
        && (p.Proceed? <==> cd.Some? && bmh.Some? && !err)
        && (p.Proceed? ==> bmh.value == HostOf(p.w) && cond == old(cond))
        && (p.Halt? ==> cond == p.report && err == p.err && p.requeue == NoRequeue)
    {
      var missing := MissingReference(cd, f);
      if missing.Some? {
        cond := cond.(message := Text(missing.value));
        return None, false;
      }
      ghost var w := c.State();
      var host;
      host, err := DisableCleaning(f);
      if err {
        cond := cond.(reason := ConfigurationFailed, message := Text(14));
        return None, true;
      }
      bmh := Some(host);
      assert HostOf(w).cleaningDisabled <==> host == HostOf(w);
    }

    method ValidateBmh(bmh: Host) returns (requeue: Requeue, err: bool)
      requires c.install.Some? && cond == Report(False, HostValidationFailed, UnknownMessage)
      modifies this
      ensures requeue != NoRequeue ==> requeue == RequeueAfter(30) && !err
      ensures var spec := c.install.value.spec; var checked := !bmh.externallyProvisioned && !bmh.inspectDisabled;
        && (requeue != NoRequeue <==> checked && (bmh.state != Available || bmh.nics.None?))
        && (err <==> checked && bmh.state == Available && bmh.nics.Some?
                     && !Accepts(spec.machineNetwork, spec.machineNetworks, bmh.nics.value))
        && cond == (if requeue != NoRequeue
                    then Report(False, HostValidationPending, Text(if bmh.state != Available then 20 else 21))
                    else if err then Report(False, HostValidationFailed, Text(22))
                    else old(cond))
    {
      hide Accepts;
      if bmh.externallyProvisioned {
        return NoRequeue, false;
      }
      if bmh.inspectDisabled {
        return NoRequeue, false;
      }
      if bmh.state != Available {
        cond := cond.(message := Text(20), reason := HostValidationPending);
        return RequeueAfter(30), false;
      }
      if bmh.nics.None? {
        cond := cond.(message := Text(21), reason := HostValidationPending);
        return RequeueAfter(30), false;
      }
      var spec := c.install.value.spec;
      var ok := ValidateMachineNetworks(spec.machineNetwork, spec.machineNetworks, bmh.nics.value);
      if !ok {
        cond := cond.(message := Text(22));
        return NoRequeue, true;
      }
      return NoRequeue, false;
    }

    method ValidateHost(bmh: Host, f: MainFaults) returns (host: Host, requeue: Requeue, err: bool)
      requires HostAt(c.State()) && bmh == HostOf(c.State())
      requires cond == Report(False, HostValidationFailed, UnknownMessage)
      modifies this, c
      ensures var p := HostValidation(old(c.State()), conditions.items, f);
        && c.State() == p.w
        && (p.Proceed? <==> requeue == NoRequeue && !err)
        && (p.Proceed? ==> host == HostOf(p.w) && cond == old(cond))
        && (p.Halt? ==> cond == p.report && requeue == p.requeue && err == p.err)
    {
      hide Accepts;
      host := bmh;
      requeue, err := ValidateBmh(bmh);
      if requeue != NoRequeue || err {
        return;
      }
      if !host.externallyProvisioned {
        host := host.(externallyProvisioned := true);
        if f.external != Lost {
          c.hosts := c.hosts[c.install.value.spec.host.value := host];
        }
        return host, NoRequeue, f.external != Fine;
      }
      return host, NoRequeue, false;
    }

    /** An unreadable or undecodable seed secret is an error; a missing one leaves both IDs empty. */
    method SeedReconfigSecretClusterIds(name: string, fails: bool)
      returns (clusterId: string, infraId: string, err: bool)
      ensures var seed := Content(c.secrets, SecretName(SeedReconfiguration, name));
        && (err <==> fails || (seed.Some? && Decode(seed.value).None?))
        && (!err ==> clusterId == (if seed.Some? then Decode(seed.value).value.clusterId else "")
                     && infraId == (if seed.Some? then Decode(seed.value).value.infraId else ""))
    {
      var store := new SecretStore(c.secrets);
      var data, present, getErr := store.SecretContent(SecretName(SeedReconfiguration, name), fails);
      if getErr {
        return "", "", true;
      }
      if !present {
        return "", "", false;
      }
      var manifest := Decode(data);
      if manifest.None? {
        return "", "", true;
      }
      return manifest.value.clusterId, manifest.value.infraId, false;
    }

    /** Each ID comes from the metadata, else from the seed secret, else it is new; no result on an error. */
    method ChooseMetadata(name: string, cd: ClusterDeployment, f: MainFaults) returns (m: Option<Metadata>)
      requires c.install.Some?
      ensures m == NewMetadata(c.install.value.spec.metadata, c.secrets, name, cd.clusterName, f)
    {
      hide InfraId.Generate, Content;
      var metadata := c.install.value.spec.metadata;
      var secretClusterId, secretInfraId, err := SeedReconfigSecretClusterIds(name, f.readSeed);
      if err {
        return None;
      }
      var clusterId: string := f.newClusterId;
      if metadata.Some? && metadata.value.clusterId != "" {
        clusterId := metadata.value.clusterId;
      } else if secretClusterId != "" {
        clusterId := secretClusterId;
      }
      var infraId;
      if metadata.Some? && metadata.value.infraId != "" {
        infraId := metadata.value.infraId;
      } else if secretInfraId != "" {
        infraId := secretInfraId;
      } else {
        infraId := InfraId.GenerateInfraId(cd.clusterName, f.newSuffix);
      }
      m := Some(Metadata(clusterId, infraId, KubeconfigName(name), Some(PasswordName(name))));
    }

    /** Whether nothing is to be done; the last comparison dies on a missing password reference. */
    method MetadataIsSet(name: string) returns (isSet: bool, panics: bool)
      requires c.install.Some?
      ensures panics <==> MetadataPanics(c.install.value.spec.metadata, name)
      ensures !panics ==> (isSet <==> MetadataComplete(c.install.value.spec.metadata, name))
    {
      var metadata := c.install.value.spec.metadata;
      if metadata.None? || metadata.value.clusterId == "" || metadata.value.infraId == ""
         || metadata.value.kubeconfigSecret != KubeconfigName(name) {
        return false, false;
      }
      if metadata.value.passwordSecret.None? {
        return false, true;
      }
      return metadata.value.passwordSecret.value == PasswordName(name), false;
    }

    method SetClusterInstallMetadata(name: string, cd: ClusterDeployment, f: MainFaults) returns (err: bool)
      requires c.install.Some? && cond == Report(False, HostValidationFailed, UnknownMessage)
      modifies this, c, conditions
      ensures var p := SetMetadata(old(c.State()), old(conditions.items), name, cd, f);
        && c.State() == p.w && conditions.items == p.list
        && (p.Proceed? <==> !err)
        && (p.Proceed? ==> cond == old(cond))
        && (p.Halt? ==> cond == p.report && p.err && p.requeue == NoRequeue)
    {
      hide NewMetadata, MetadataComplete, MetadataPanics, WithMetadata;
      var isSet, panics := MetadataIsSet(name);
      if panics || isSet {
        return panics;
      }
      var m := ChooseMetadata(name, cd, f);
      if m.None? || f.metadata == Lost {
        cond := cond.(message := Text(30));
        return true;
      }
      c.install := Some(WithMetadata(c.install.value, m));
      if f.metadata != Fine {
        cond := cond.(message := Text(30));
        return true;
      }
      conditions.items := c.install.value.status.conditions;
      return false;
    }

    method CreateImage(name: string, cd: ClusterDeployment, f: MainFaults) returns (requeue: Requeue, err: bool)
      requires c.install.Some? && cond.status == False && cond.reason == ImageCreationFailed
      modifies this, c
      ensures var p := ImageCreation(old(c.State()), conditions.items, name, cd, f);
        && c.State() == p.w
        && (p.Proceed? <==> requeue == NoRequeue && !err)
        && (p.Proceed? ==> cond == old(cond))
        && (p.Halt? ==> cond == p.report && requeue == p.requeue && err == p.err)
    {
      hide WriteInputData;
      var ici := c.install.value;
      var workspace := new Workspace(DirOf(c.State(), ici.uid));
      var store := new SecretStore(c.secrets);
      var result := workspace.WriteInput(store, name, ConfigFor(ici.spec.metadata, cd, f.configRest), f.build);
      c.secrets := store.secrets;
      var dir := workspace.State();
      c.dirs := match dir case None => c.dirs - {ici.uid} case Some(d) => c.dirs[ici.uid := d];
      match result {
        case BuildFailed =>
          cond := cond.(reason := ImageCreationFailed, message := Text(40));
          return NoRequeue, true;
        case BuildBusy =>
          cond := cond.(reason := ImageCreationPending, message := Text(41));
          return RequeueAfter(5), false;
        case BuildDone =>
      }
      if f.url {
        cond := cond.(message := Text(42));
        return NoRequeue, true;
      }
      return NoRequeue, false;
    }

    /** Returns the image of the host, creating it when there is none. */
    method EnsureBmhDataImage(f: MainFaults) returns (image: Option<DataImage>, requeue: Requeue, err: bool)
      requires HostAt(c.State())
      modifies c`images
      ensures requeue != NoRequeue ==> !err
      ensures image.None? ==> err
      ensures var p := EnsureDataImage(old(c.State()), conditions.items, f);
        && c.State() == p.w
        && (p.Proceed? <==> image.Some? && requeue == NoRequeue && !err)
        && (p.Proceed? ==> image.value == p.w.images[RefOf(p.w)])
        && (p.Halt? ==> requeue == p.requeue && err == p.err
                        && var reason := if err then HostConfigurationFailed else HostConfigurationPending;
                           p.report == Report(False, reason, Text(if err then 50 else 51)))
    {
      var ref := c.install.value.spec.host.value;
      if f.getImage {
        return None, NoRequeue, true;
      }
      if ref in c.images {
        if c.images[ref].terminating {
          return Some(c.images[ref]), RequeueAfter(30), false;
        }
        return Some(c.images[ref]), NoRequeue, false;
      }
      if f.ownerRef || f.createImage == Lost {
        return None, NoRequeue, true;
      }
      var url := ImageUrl(c.install.value.namespace, c.install.value.uid);
      c.images := c.images[ref := DataImage(url, c.now, false, false)];
      if f.createImage != Fine || f.rereadImage {
        return None, NoRequeue, true;
      }
      return Some(c.images[ref]), NoRequeue, false;
    }

    /** Marks the host as managed, unless it already is or is in no state for it. */
    method UpdateBmhProvisioningState(bmh: Host, image: DataImage, f: MainFaults) returns (host: Host, err: bool)
      requires HostAt(c.State()) && bmh == HostOf(c.State())
      requires RefOf(c.State()) in c.images && image == c.images[RefOf(c.State())]
      modifies c`hosts
      ensures var p := UpdateProvisioning(old(c.State()), conditions.items, f);
        && c.State() == p.w
        && (p.Proceed? <==> !err && host.managed)
        && (p.Halt? ==> err == p.err && p.requeue == NoRequeue
                        && var reason := if err then HostConfigurationFailed else HostConfigurationPending;
                           p.report == Report(False, reason, Text(if err then 53 else 54)))
    {
      host := bmh;
      if host.managed {
        return host, false;
      }
      if host.state != Available && host.state != ExternallyProvisioned {
        return host, false;
      }
      if !host.online {
        host := host.(online := true);
      }
      if !image.attached && !host.reboot {
        host := host.(reboot := true);
      }
      host := host.(managed := true);
      assert host == bmh.(online := true, managed := true, reboot := bmh.reboot || !image.attached);
      if f.provisioning != Lost {
        c.hosts := c.hosts[c.install.value.spec.host.value := host];
      }
      return host, f.provisioning != Fine;
    }

    method RecordStart(f: MainFaults) returns (err: bool)
      requires c.install.Some? && cond == Report(False, HostConfigurationFailed, cond.message)
      modifies this, c, conditions
      ensures var p := RecordBoot(old(c.State()), old(conditions.items), f);
        && c.State() == p.w && conditions.items == p.list
        && (p.Proceed? <==> !err)
        && (p.Halt? ==> cond == p.report && p.err && p.requeue == NoRequeue)
    {
      var ici := c.install.value;
      if ici.status.host.None? {
        if f.boot == Lost {
          cond := cond.(message := Text(55));
          return true;
        }
        var status := ici.status.(host := ici.spec.host);
        if status.bootTime.None? {
          status := status.(bootTime := Some(c.now));
        }
        c.install := Some(ici.(status := status));
        if f.boot != Fine {
          cond := cond.(message := Text(55));
          return true;
        }
        conditions.items := status.conditions;
      }
      return false;
    }

    method BootIntoImage(bmh: Host, image: DataImage, f: MainFaults) returns (proceed: bool, err: bool)
      requires HostAt(c.State()) && bmh == HostOf(c.State())
      requires RefOf(c.State()) in c.images && image == c.images[RefOf(c.State())]
      requires cond == Report(False, HostConfigurationFailed, cond.message)
      modifies this, c, conditions
      ensures var p := BootHost(old(c.State()), old(conditions.items), f);
        && c.State() == p.w && conditions.items == p.list
        && (p.Proceed? <==> proceed && !err)
        && (p.Halt? ==> cond == p.report && p.requeue == NoRequeue && err == p.err)
    {
      hide UpdateProvisioning, RecordBoot;
      var host;
      host, err := UpdateBmhProvisioningState(bmh, image, f);
      if err {
        cond := cond.(message := Text(53));
        return false, true;
      }
      if !host.managed {
        cond := cond.(reason := HostConfigurationPending, message := Text(54));
        return false, false;
      }
      err := RecordStart(f);
      proceed := !err;
    }

    method EnsureCooledImage(o: Options, f: MainFaults) returns (image: Option<DataImage>, requeue: Requeue, err: bool)
      requires HostAt(c.State())
      requires cond == Report(False, HostConfigurationFailed, cond.message)
      modifies this, c`images
      ensures var p := AttachImage(o, old(c.State()), conditions.items, f);
        && c.State() == p.w
        && (p.Proceed? <==> image.Some?)
        && (p.Proceed? ==> image.value == p.w.images[RefOf(p.w)] && cond == old(cond))
        && (p.Halt? ==> cond == p.report && requeue == p.requeue && err == p.err)
    {
      hide EnsureDataImage;
      image, requeue, err := EnsureBmhDataImage(f);
      if requeue != NoRequeue {
        cond := cond.(reason := HostConfigurationPending, message := Text(51));
        return None, requeue, false;
      }
      if err {
        cond := cond.(message := Text(50));
        return None, NoRequeue, true;
      }
      if image.value.created + o.coolDown > c.now {
        cond := cond.(reason := HostConfigurationPending, message := Text(52));
        return None, RequeueAfter(o.coolDown), false;
      }
    }

    method ConfigureHost(o: Options, bmh: Host, f: MainFaults) returns (proceed: bool, requeue: Requeue, err: bool)
      requires HostAt(c.State()) && bmh == HostOf(c.State())
      requires cond == Report(False, HostConfigurationFailed, cond.message)
      modifies this, c, conditions
      ensures var p := HostConfiguration(o, old(c.State()), old(conditions.items), f);
        && c.State() == p.w && conditions.items == p.list
        && (p.Proceed? <==> proceed && requeue == NoRequeue && !err)
        && (p.Halt? ==> cond == p.report && requeue == p.requeue && err == p.err)
    {
      hide AttachImage, BootHost;
      var image;
      image, requeue, err := EnsureCooledImage(o, f);
      if image.None? {
        return false, requeue, err;
      }
      proceed, err := BootIntoImage(bmh, image.value, f);
      requeue := NoRequeue;
    }

    // ------------------------------------------------------ reconcile

    method RunBeforeImage(cd: Option<ClusterDeployment>, f: MainFaults)
      returns (bmh: Option<Host>, requeue: Requeue, err: bool)
      requires c.install.Some? && cond == Report(False, UnknownReason, UnknownMessage)
      requires cd.Some? ==> c.install.value.spec.deployment.Some?
      modifies this, c, conditions
      ensures var p := BeforeImage(old(c.State()), old(conditions.items), cd, f);
        && c.State() == p.w && conditions.items == p.list
        && (p.Proceed? <==> bmh.Some?)
        && (p.Proceed? ==> bmh.value == HostOf(p.w) && cond.status == False)
        && (p.Halt? ==> cond == p.report && requeue == p.requeue && err == p.err)
    {
      hide Configuration, HostValidation, SetMetadata;
      cond := cond.(reason := ConfigurationPending);
      bmh, err := ValidateConfiguration(cd, f);
      if cd.None? || bmh.None? || err {
        return None, NoRequeue, err;
      }
      cond := cond.(reason := HostValidationFailed);
      var host;
      host, requeue, err := ValidateHost(bmh.value, f);
      if requeue != NoRequeue || err {
        return None, requeue, err;
      }
      err := SetClusterInstallMetadata(c.install.value.spec.deployment.value, cd.value, f);
      if err {
        return None, NoRequeue, true;
      }
      bmh := Some(host);
    }

    method RunImageAndHost(o: Options, bmh: Host, name: string, cd: ClusterDeployment, f: MainFaults)
      returns (requeue: Requeue, err: bool)
      requires HostAt(c.State()) && bmh == HostOf(c.State()) && cond.status == False
      modifies this, c, conditions
      ensures var p := ImageAndHost(o, old(c.State()), old(conditions.items), name, cd, f);
        && c.State() == p.w && conditions.items == p.list
        && cond == (if p.Halt? then p.report else MET)
        && requeue == (if p.Halt? then p.requeue else NoRequeue)
        && err == (p.Halt? && p.err)
    {
      hide BuildFor, AfterBuild, HostConfiguration;
      cond := cond.(reason := ImageCreationFailed);
      requeue, err := CreateImage(name, cd, f);
      if requeue != NoRequeue || err {
        return;
      }
      cond := cond.(reason := HostConfigurationFailed);
      var proceed;
      proceed, requeue, err := ConfigureHost(o, bmh, f);
      if !proceed || requeue != NoRequeue || err {
        return;
      }
      cond := MET;
    }

    /** The phases, with the condition updated at the end whichever way they end. */
    method RunAllPhases(o: Options, cd: Option<ClusterDeployment>, f: MainFaults) returns (requeue: Requeue, err: bool)
      requires c.install.Some? && cond == Report(False, UnknownReason, UnknownMessage)
      requires cd.Some? ==> c.install.value.spec.deployment.Some?
      modifies this, c, conditions
      ensures Outcome(c.State(), requeue, err, Some(cond)) == RunPhases(o, old(c.State()), old(conditions.items), cd, f)
    {
      hide BeforeImage, ImageAndHost, RecordReport;
      var name := c.install.value.spec.deployment;
      var bmh;
      bmh, requeue, err := RunBeforeImage(cd, f);
      if bmh.Some? {
        requeue, err := RunImageAndHost(o, bmh.value, name.value, cd.value, f);
      }
      SetRequirementsMet(cond, f.report);
    }

    method EnsureAnnotations(restoreStatus: bool, postCleanup: bool, fault: WriteFault) returns (err: bool)
      requires c.install.Some?
      modifies c, conditions
      ensures Prepared(c.State(), conditions.items, err) ==
                Annotate(old(c.State()), old(conditions.items), restoreStatus, postCleanup, fault)
    {
      var ici := WithAnnotations(c.install.value, restoreStatus, postCleanup);
      if ici == c.install.value {
        return false;
      }
      if fault == Lost {
        return true;
      }
      c.install := Some(ici);
      if fault != Fine {
        return true;
      }
      conditions.items := ici.status.conditions;
      return false;
    }

    method EnsureConditions(fault: WriteFault) returns (err: bool)
      requires c.install.Some?
      modifies c, conditions
      ensures Prepared(c.State(), conditions.items, err) ==
                InitializeStatus(old(c.State()), old(conditions.items), fault)
    {
      hide Initialized;
      var needToPatch := conditions.InitializeConditions(c.now);
      if !needToPatch {
        return false;
      }
      if fault == Lost {
        return true;
      }
      PatchStatusConditions();
      return fault != Fine;
    }

    /** Everything between the restore gate and the phases. */
    method PrepareObject(f: MainFaults) returns (err: bool)
      requires c.install.Some?
      modifies c, conditions
      ensures Prepared(c.State(), conditions.items, err) == Prepare(old(c.State()), old(conditions.items), f)
    {
      hide Annotate, InitializeStatus;
      err := EnsureAnnotations(true, c.install.value.postCleanup, f.restoreStatus);
      if err {
        return;
      }
      err := EnsureAnnotations(true, true, f.postCleanup);
      if err {
        return;
      }
      err := EnsureConditions(f.initialize);
    }

    method GetDeployment(f: MainFaults) returns (cd: Option<ClusterDeployment>)
      requires c.install.Some?
      ensures cd == LookUpDeployment(c.State(), f)
    {
      var name := c.install.value.spec.deployment;
      if name.Some? && name.value != "" {
        if !f.getDeployment && name.value in c.deployments {
          return Some(c.deployments[name.value]);
        }
      }
      return None;
    }

    method IsCompleted() returns (r: bool)
      requires c.install.Some? && conditions.items == Stored(c.State())
      ensures r <==> InstallationCompleted(c.install.value)
    {
      var i := conditions.FindCondition(Completed);
      r := i >= 0 && conditions.items[i].status == True;
    }

    /** The lines that set a condition right which still says False after the start. */
    method RepairRequirementsMet(f: MainFaults)
      requires c.install.Some? && conditions.items == Stored(c.State())
      modifies c, conditions
      ensures Held(c.State(), conditions.items) == Repair(old(c.State()), f)
      ensures c.install.Some? && c.install.value.spec == old(c.install.value.spec) && c.dirs == old(c.dirs)
    {
      if c.install.value.status.bootTime.Some? {
        var met := conditions.FindCondition(RequirementsMet);
        if met >= 0 && conditions.items[met].status == False {
          SetRequirementsMet(MET, f.repair);
        }
      }
    }

    method ReconcileWaiting(o: Options, cd: Option<ClusterDeployment>, f: MainFaults)
      returns (requeue: Requeue, err: bool, reported: bool)
      requires c.install.Some? && cond == Report(False, UnknownReason, UnknownMessage)
      requires cd.Some? ==> c.install.value.spec.deployment.Some?
      modifies this, c, conditions
      ensures Outcome(c.State(), requeue, err, if reported then Some(cond) else None) ==
                AfterRestoreGate(o, old(c.State()), old(conditions.items), cd, f)
    {
      hide RunPhases, Prepare;
      err := PrepareObject(f);
      if err {
        return NoRequeue, true, false;
      }
      requeue, err := RunAllPhases(o, cd, f);
      reported := true;
    }

    /** What follows the finalizer; `reported` tells whether the phases were entered. */
    method ReconcileActive(o: Options, f: MainFaults) returns (requeue: Requeue, err: bool, reported: bool)
      requires c.install.Some? && conditions.items == Stored(c.State())
      requires cond == Report(False, UnknownReason, UnknownMessage)
      modifies this, c, conditions
      ensures Outcome(c.State(), requeue, err, if reported then Some(cond) else None) == Active(o, old(c.State()), f)
    {
      hide PostCleanup, AfterRestoreGate, LookUpDeployment, InstallationCompleted, BeingRestored, Repair, Built;
      var cd := GetDeployment(f);
      var completed := IsCompleted();
      if completed {
        requeue, err := HandlePostCleanup(f);
        reported := false;
        return;
      }
      var ici := c.install.value;
      RepairRequirementsMet(f);
      if ici.status.bootTime.Some? && ImageReady(c.State(), ici.uid) {
        return NoRequeue, false, false;
      }
      if BeingRestored(ici) {
        return NoRequeue, false, false;
      }
      requeue, err, reported := ReconcileWaiting(o, cd, f);
    }
  }

  /** One call of the main controller. */
  method Reconcile(o: Options, c: Cluster, f: MainFaults) returns (requeue: Requeue, err: bool)
    modifies c
    ensures var out := MainReconcile(o, old(c.State()), f);
      c.State() == out.w && requeue == out.requeue && err == out.err
  {
    hide Finalize, Active;
    if c.install.None? {
      return NoRequeue, false;
    }
    if f.getInstall {
      return NoRequeue, true;
    }
    var conditions := new ConditionList(c.install.value.status.conditions);
    var call := new Reconciliation(c, conditions);
    var stop;
    requeue, stop, err := call.HandleFinalizer(f);
    if requeue != NoRequeue || stop || err {
      return;
    }
    var reported;
    requeue, err, reported := call.ReconcileActive(o, f);
  }
}
