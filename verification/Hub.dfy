/**
 The stored objects of one installation on the hub cluster, and the working directories on the pod's disk.
 */
module Hub {
  import opened Base
  import opened Conditions
  import opened Credentials
  import opened ImageBuild
  import opened MachineNetworks

  datatype HostRef = HostRef(name: string, namespace: string)

  datatype ProvisioningState = Available | ExternallyProvisioned | OtherState

  datatype Host = Host(
    cleaningDisabled: bool,
    externallyProvisioned: bool,
    online: bool,
    inspectDisabled: bool,       // inspect.metal3.io is "disabled"
    reboot: bool,                // reboot.metal3.io is set
    managed: bool,               // image-based-install-managed is set
    state: ProvisioningState,
    nics: Option<seq<Nic>>,      // hardware details, once inspected
    poweredOn: bool)

  /** Where an image is served: the namespace and UID of its installation. */
  datatype ImageUrl = ImageUrl(namespace: string, uid: string)

  datatype DataImage = DataImage(url: ImageUrl, created: int, terminating: bool, attached: bool)

  datatype ClusterDeployment = ClusterDeployment(clusterName: string, baseDomain: string)

  /** A secret referred to by name: one of the operator's own (names never clash), or some other one. */
  datatype SecretRef = Own(name: SecretName) | Foreign(text: string)

  /** Cluster metadata; the reference to the password secret is a pointer. */
  datatype Metadata = Metadata(
    clusterId: string,
    infraId: string,
    kubeconfigSecret: SecretRef,
    passwordSecret: Option<SecretRef>)

  datatype Spec = Spec(
    deployment: Option<string>,
    host: Option<HostRef>,
    metadata: Option<Metadata>,
    machineNetwork: Cidr,
    machineNetworks: seq<Cidr>,
    proxy: bool,
    sshKeyValid: bool,
    hostnameValid: bool,
    rest: nat)

  /** The specification without the part that the operator itself fills in. */
  function UserSpec(s: Spec): Spec {
    s.(metadata := None)
  }

  datatype Status = Status(
    conditions: seq<Condition>,
    installRestarts: int,
    host: Option<HostRef>,
    bootTime: Option<int>)

  const EMPTY_STATUS := Status([], 0, None, None)

  /** The install-timeout annotation. */
  datatype TimeoutAnnotation = NotSet | Malformed | Seconds(seconds: int)

  datatype Install = Install(
    namespace: string,
    uid: string,
    deleting: bool,
    finalizer: bool,             // this operator's finalizer
    otherFinalizers: bool,
    restoreLabel: bool,          // velero.io/restore-name
    restoreStatus: bool,         // velero.io/restore-status annotation
    postCleanup: bool,           // post-cleanup annotation
    timeout: TimeoutAnnotation,
    spec: Spec,
    status: Status)

  datatype Options = Options(coolDown: nat, defaultTimeout: int)

  datatype World = World(
    now: int,
    install: Option<Install>,
    hosts: map<HostRef, Host>,
    images: map<HostRef, DataImage>,
    deployments: map<string, ClusterDeployment>,
    secrets: Secrets,
    dirs: map<string, WorkDir>,  // by installation UID
    uids: set<string>)           // every UID handed out so far

  function DirOf(w: World, uid: string): Option<WorkDir> {
    if uid in w.dirs then Some(w.dirs[uid]) else None
  }

  function WithDir(w: World, uid: string, d: Option<WorkDir>): World {
    w.(dirs := match d case None => w.dirs - {uid} case Some(x) => w.dirs[uid := x])
  }

  predicate ImageReady(w: World, uid: string) {
    PresentAndBuilt(DirOf(w, uid))
  }

  predicate InstallationCompleted(i: Install) {
    HasStatus(i.status.conditions, Completed, True)
  }

  predicate InstallationTimedOut(i: Install) {
    var c := Find(i.status.conditions, Failed);
    c.Some? && c.value.status == True && c.value.reason == InstallTimedOut
  }

  /** An object as a restore brings it back: labelled, its status still to come. */
  predicate FreshFromBackup(i: Install) {
    i.restoreLabel && i.status == EMPTY_STATUS
  }

  /** The gate of the main controller: restored from a backup, and no field of the status is set yet. */
  predicate BeingRestored(i: Install) {
    && i.restoreLabel
    && |i.status.conditions| == 0
    && i.status.installRestarts == 0
    && i.status.host.None?
    && i.status.bootTime.None?
  }

  /** The gate holds back exactly the objects that a restore brings and nothing has touched since. */
  lemma RestoreGateIff(i: Install)
    ensures BeingRestored(i) <==> FreshFromBackup(i)
  {
  }

  // -------------------------------------------------- stored conditions

  function Stored(w: World): seq<Condition>
    requires w.install.Some?
  {
    w.install.value.status.conditions
  }

  function PatchConditions(w: World, list: seq<Condition>): World
    requires w.install.Some?
  {
    w.(install := Some(w.install.value.(status := w.install.value.status.(conditions := list))))
  }

  /** The stored objects behind the API client, and the disk. */
  class Cluster {
    var now: int
    var install: Option<Install>
    var hosts: map<HostRef, Host>
    var images: map<HostRef, DataImage>
    var deployments: map<string, ClusterDeployment>
    var secrets: Secrets
    var dirs: map<string, WorkDir>
    var uids: set<string>

    function State(): World
      reads this
    {
      World(now, install, hosts, images, deployments, secrets, dirs, uids)
    }

    constructor (w: World)
      ensures State() == w
    {
      now, install, hosts, images := w.now, w.install, w.hosts, w.images;
      deployments, secrets, dirs, uids := w.deployments, w.secrets, w.dirs, w.uids;
    }
  }
}
