/**
 Building the configuration image: `writeInputData` of controllers/imageclusterinstall_controller.go,
 `WriteReinstallData` of internal/installer/reinstall.go, and the installer as a contract.

 The working directory is lost whenever the pod restarts, so a build either generates a new identity or,
 when the three identity secrets exist, rebuilds the directory from them.
 */
module ImageBuild {
  import opened Base
  import opened Credentials

  /** The four files the controller looks for. The image is known by the manifest it embeds. */
  datatype WorkDir = WorkDir(
    iso: Option<Bytes>,
    kubeconfig: Option<Bytes>,
    password: Option<Bytes>,
    manifest: Option<Bytes>)

  const EMPTY_DIR := WorkDir(None, None, None, None)

  function Files(d: WorkDir): IdentityFiles {
    IdentityFiles(d.kubeconfig, d.password, d.manifest)
  }

  /** All four files exist. */
  predicate Built(d: WorkDir) {
    d.iso.Some? && d.kubeconfig.Some? && d.password.Some? && d.manifest.Some?
  }

  predicate PresentAndBuilt(d: Option<WorkDir>) {
    d.Some? && Built(d.value)
  }

  /** What the install config and image-based config files say about the cluster. */
  datatype Config = Config(
    clusterId: string, infraId: string, baseDomain: string, clusterName: string, rest: nat)

  function ManifestFor(c: Config, passwordHash: nat, crypto: nat): Manifest {
    Manifest(passwordHash, crypto, c.clusterId, c.infraId, c.baseDomain, c.clusterName, c.rest)
  }

  // ------------------------------------------------------------ faults

  /** Deleting a directory tree works, or leaves some of its files behind. */
  datatype Removal = Removed | Kept(iso: bool, kubeconfig: bool, password: bool, manifest: bool)

  function AfterRemoval(d: WorkDir, r: Removal): WorkDir {
    match r
    case Removed => EMPTY_DIR
    case Kept(i, k, p, m) =>
      WorkDir(if i then d.iso else None, if k then d.kubeconfig else None,
              if p then d.password else None, if m then d.manifest else None)
  }

  datatype ReinstallFaults = ReinstallFaults(assets: bool, manifest: bool, kubeconfig: bool, password: bool)

  /** The installer succeeds, or fails after writing some of the files it was to write. */
  datatype InstallerRun = InstallerRun(generation: nat, fails: bool,
                                       iso: bool, kubeconfig: bool, password: bool, manifest: bool)

  datatype BuildFaults = BuildFaults(
    dirs: bool,             // creating the lock and files directories
    lock: bool,             // acquiring the file lock
    busy: bool,             // another process holds the lock
    removal: Removal,       // removing the previous working directory; its error is ignored
    workDir: bool,          // creating the working directory
    inputs: bool,           // pull secret, CA bundle and extra manifests
    read: ReadFaults,       // reading the identity secrets
    tempDir: bool,          // creating the temporary directory for a reinstall
    configs: bool,          // writing the two config files
    reinstall: ReinstallFaults,
    installer: InstallerRun,
    ensure: EnsureFaults)

  // ------------------------------------------------------- reinstallation

  datatype Rebuilt = Rebuilt(dir: WorkDir, err: bool)

  /** The cluster name and base domain of an identity are fixed. */
  predicate ValidForReinstall(c: Config, m: Manifest) {
    c.baseDomain == m.baseDomain && c.clusterName == m.clusterName
  }

  function WriteReinstallData(d: WorkDir, id: IdentityData, c: Config, f: ReinstallFaults): Rebuilt {
    if f.assets || Decode(id.seed).None? then Rebuilt(d, true)
    else
      var m := Decode(id.seed).value;
      if !ValidForReinstall(c, m) || f.manifest then Rebuilt(d, true)
      else
        var d1 := d.(manifest := Some(ManifestOf(ManifestFor(c, m.passwordHash, m.crypto))));
        if f.kubeconfig then Rebuilt(d1, true)
        else
          var d2 := d1.(kubeconfig := Some(id.kubeconfig));
          if f.password then Rebuilt(d2, true) else Rebuilt(d2.(password := Some(id.password)), false)
  }

  /** The files an installer run aims at: existing identity files are kept, missing ones belong to one generation. */
  function InstallerTarget(d: WorkDir, c: Config, g: nat): (r: WorkDir)
    ensures Built(r)
  {
    var m := if d.manifest.Some? then d.manifest else Some(ManifestOf(ManifestFor(c, g, g)));
    WorkDir(m,
            if d.kubeconfig.Some? then d.kubeconfig else Some(KubeconfigOf(g)),
            if d.password.Some? then d.password else Some(PasswordOf(g)),
            m)
  }

  function CreateInstallationIso(d: WorkDir, c: Config, run: InstallerRun): Rebuilt {
    var target := InstallerTarget(d, c, run.generation);
    if !run.fails then Rebuilt(target, false)
    else Rebuilt(WorkDir(if run.iso then target.iso else d.iso,
                         if run.kubeconfig then target.kubeconfig else d.kubeconfig,
                         if run.password then target.password else d.password,
                         if run.manifest then target.manifest else d.manifest), true)
  }

  // ---------------------------------------------------------- the build

  datatype BuildResult = BuildDone | BuildBusy | BuildFailed

  datatype BuildEnd = BuildEnd(secrets: Secrets, dir: Option<WorkDir>, result: BuildResult)

  function Finish(s: Secrets, d: WorkDir, deployment: string, f: EnsureFaults): BuildEnd {
    var e := EnsureCreds(s, deployment, Files(d), f);
    BuildEnd(e.secrets, Some(d), if e.err then BuildFailed else BuildDone)
  }

  /** The directory after the steps between the lock and the credentials. */
  function Rebuild(s: Secrets, prior: WorkDir, deployment: string, c: Config, f: BuildFaults): Rebuilt {
    var d := AfterRemoval(prior, f.removal);
    if f.workDir || f.inputs then Rebuilt(d, true)
    else
      var id := ReadIdentity(s, deployment, f.read);
      if id.err || (id.data.Some? && f.tempDir) || f.configs then Rebuilt(d, true)
      else if c.clusterId == "" || c.infraId == "" then Rebuilt(d, true)
      else
        var r := if id.data.Some? then WriteReinstallData(d, id.data.value, c, f.reinstall) else Rebuilt(d, false);
        if r.err then r else CreateInstallationIso(r.dir, c, f.installer)
  }

  function WriteInputData(s: Secrets, dir: Option<WorkDir>, deployment: string, c: Config, f: BuildFaults): BuildEnd {
    if f.dirs then BuildEnd(s, dir, BuildFailed)
    else
      var d := if dir.Some? then dir.value else EMPTY_DIR;
      if f.lock then BuildEnd(s, Some(d), BuildFailed)
      else if f.busy then BuildEnd(s, Some(d), BuildBusy)
      else if Built(d) then Finish(s, d, deployment, f.ensure)
      else
        var r := Rebuild(s, d, deployment, c, f);
        if r.err then BuildEnd(s, Some(r.dir), BuildFailed) else Finish(s, r.dir, deployment, f.ensure)
  }

  /** A finished build leaves all four files, and the three secrets mirror the identity files. */
  lemma BuildDoneMirrors(s: Secrets, dir: Option<WorkDir>, deployment: string, c: Config, f: BuildFaults)
    requires WriteInputData(s, dir, deployment, c, f).result == BuildDone
    ensures var r := WriteInputData(s, dir, deployment, c, f);
            PresentAndBuilt(r.dir) && Mirrors(r.secrets, deployment, Files(r.dir.value))
  {
    hide EnsureCreds, Mirrors, OnlyFromFiles, SameElsewhere, WriteReinstallData, ReadIdentity;
    var r := WriteInputData(s, dir, deployment, c, f);
    EnsureCredsEffect(s, deployment, Files(r.dir.value), f.ensure);
  }

  // ------------------------------------------------ identity invariant

  /** Every file that is there agrees with the stored identity. */
  predicate Agrees(d: WorkDir, id: IdentityData) {
    && (d.kubeconfig.Some? ==> d.kubeconfig.value == id.kubeconfig)
    && (d.password.Some? ==> d.password.value == id.password)
    && (d.manifest.Some? ==> SameKernel(d.manifest.value, id.seed))
    && (d.iso.Some? ==> SameKernel(d.iso.value, id.seed))
  }

  /** Two manifests of one identity: they may differ only in what a reinstall may change. */
  predicate SameKernel(a: Bytes, b: Bytes) {
    && a.ManifestOf? && b.ManifestOf?
    && a.manifest.passwordHash == b.manifest.passwordHash
    && a.manifest.crypto == b.manifest.crypto
    && a.manifest.clusterId == b.manifest.clusterId
    && a.manifest.infraId == b.manifest.infraId
    && a.manifest.baseDomain == b.manifest.baseDomain
    && a.manifest.clusterName == b.manifest.clusterName
  }

  /** A complete directory that is not stored yet: one generation, under the given cluster and infra IDs. */
  ghost predicate OneGeneration(d: WorkDir, clusterId: string, infraId: string) {
    && Built(d)
    && Coherent(IdentityIn(d))
    && SameKernel(d.iso.value, d.manifest.value)
    && d.manifest.value.manifest.clusterId == clusterId
    && d.manifest.value.manifest.infraId == infraId
  }

  /** Secrets and working directory of one deployment fit together. */
  ghost predicate Consistent(s: Secrets, dir: Option<WorkDir>, deployment: string, clusterId: string, infraId: string) {
    match IdentityOf(s, deployment)
    case Some(id) =>
      && Coherent(id)
      && id.seed.manifest.clusterId == clusterId
      && id.seed.manifest.infraId == infraId
      && (dir.Some? ==> Agrees(dir.value, id))
    case None =>
      && Content(s, SecretName(SeedReconfiguration, deployment)).None?
      && (PresentAndBuilt(dir) ==> OneGeneration(dir.value, clusterId, infraId))
  }

  /** The three identity files. */
  function IdentityIn(d: WorkDir): IdentityData
    requires d.kubeconfig.Some? && d.password.Some? && d.manifest.Some?
  {
    IdentityData(d.kubeconfig.value, d.password.value, d.manifest.value)
  }

  predicate NoIdentityFile(d: WorkDir) {
    d.kubeconfig.None? && d.password.None? && d.manifest.None?
  }

  predicate AllIdentityFiles(d: WorkDir) {
    d.kubeconfig.Some? && d.password.Some? && d.manifest.Some?
  }

  /** What a removal may leave behind without harm: nothing, or a whole identity under these IDs and no image. */
  ghost predicate HarmlessRemains(left: WorkDir, clusterId: string, infraId: string) {
    && left.iso.None?
    && (|| NoIdentityFile(left)
        || (&& AllIdentityFiles(left) && Coherent(IdentityIn(left))
            && left.manifest.value.manifest.clusterId == clusterId
            && left.manifest.value.manifest.infraId == infraId))
  }

  function Present(dir: Option<WorkDir>): WorkDir {
    if dir.Some? then dir.value else EMPTY_DIR
  }

  /** No remains of an earlier generation can slip into a newly generated identity or its image. */
  ghost predicate CleanStart(s: Secrets, dir: Option<WorkDir>, deployment: string, clusterId: string, infraId: string,
                             removal: Removal) {
    || IdentityOf(s, deployment).Some?
    || PresentAndBuilt(dir)
    || HarmlessRemains(AfterRemoval(Present(dir), removal), clusterId, infraId)
  }

  /** Rebuilding from a complete identity reproduces it. */
  lemma RebuildAgrees(s: Secrets, prior: WorkDir, deployment: string, c: Config, f: BuildFaults)
    requires IdentityOf(s, deployment).Some?
    requires Consistent(s, Some(prior), deployment, c.clusterId, c.infraId)
    ensures Agrees(Rebuild(s, prior, deployment, c, f).dir, IdentityOf(s, deployment).value)
  {
  }

  /** Generating on harmless remains yields one generation, also when the run fails after the last file. */
  lemma RebuildGenerates(s: Secrets, prior: WorkDir, deployment: string, c: Config, f: BuildFaults)
    requires IdentityOf(s, deployment).None?
    requires HarmlessRemains(AfterRemoval(prior, f.removal), c.clusterId, c.infraId)
    ensures var r := Rebuild(s, prior, deployment, c, f);
            Built(r.dir) ==> OneGeneration(r.dir, c.clusterId, c.infraId)
  {
    var r := Rebuild(s, prior, deployment, c, f);
    var left := AfterRemoval(prior, f.removal);
    if Built(r.dir) {
      if NoIdentityFile(left) {
        assert PartsOf(IdentityIn(r.dir), f.installer.generation);
      } else {
        assert IdentityIn(r.dir) == IdentityIn(left);
      }
    }
  }

  /** Storing a complete directory, with any failures, keeps secrets and directory consistent. */
  lemma FinishKeepsConsistent(s: Secrets, d: WorkDir, deployment: string, clusterId: string, infraId: string,
                              f: EnsureFaults)
    requires Built(d)
    requires Consistent(s, Some(d), deployment, clusterId, infraId)
    ensures Consistent(Finish(s, d, deployment, f).secrets, Some(d), deployment, clusterId, infraId)
    ensures IdentityOf(s, deployment).Some? ==>
              && IdentityOf(Finish(s, d, deployment, f).secrets, deployment).Some?
              && KernelOf(IdentityOf(Finish(s, d, deployment, f).secrets, deployment).value)
                 == KernelOf(IdentityOf(s, deployment).value)
  {
    var r := Finish(s, d, deployment, f).secrets;
    EnsureCredsEffect(s, deployment, Files(d), f);
    SeedIsWrittenLast(s, deployment, Files(d), f);
    match IdentityOf(s, deployment) {
      case Some(id) =>
        var g: nat :| PartsOf(id, g);
        var id' := IdentityOf(r, deployment).value;
        assert PartsOf(id', g);
      case None =>
        assert Coherent(IdentityIn(d));
    }
  }

  /**
   One call keeps secrets and directory consistent and leaves a complete identity as it is,
   whichever reads, writes and file operations fail.
   */
  lemma BuildKeepsConsistent(s: Secrets, dir: Option<WorkDir>, deployment: string, c: Config, f: BuildFaults)
    requires Consistent(s, dir, deployment, c.clusterId, c.infraId)
    requires CleanStart(s, dir, deployment, c.clusterId, c.infraId, f.removal)
    ensures var r := WriteInputData(s, dir, deployment, c, f);
      && Consistent(r.secrets, r.dir, deployment, c.clusterId, c.infraId)
      && (IdentityOf(s, deployment).Some? ==>
            && IdentityOf(r.secrets, deployment).Some?
            && KernelOf(IdentityOf(r.secrets, deployment).value) == KernelOf(IdentityOf(s, deployment).value))
      && SameElsewhere(s, r.secrets, deployment)
  {
    var d := if dir.Some? then dir.value else EMPTY_DIR;
    if !f.dirs && !f.lock && !f.busy {
      if Built(d) {
        FinishKeepsConsistent(s, d, deployment, c.clusterId, c.infraId, f.ensure);
        EnsureCredsEffect(s, deployment, Files(d), f.ensure);
      } else {
        var r := Rebuild(s, d, deployment, c, f);
        if IdentityOf(s, deployment).Some? {
          RebuildAgrees(s, d, deployment, c, f);
        } else {
          RebuildGenerates(s, d, deployment, c, f);
        }
        if !r.err {
          FinishKeepsConsistent(s, r.dir, deployment, c.clusterId, c.infraId, f.ensure);
          EnsureCredsEffect(s, deployment, Files(r.dir), f.ensure);
        }
      }
    }
  }

  // ------------------------------------------------- the code, step by step

  class Workspace {
    var present: bool
    var iso: Option<Bytes>
    var kubeconfig: Option<Bytes>
    var password: Option<Bytes>
    var manifest: Option<Bytes>

    constructor (dir: Option<WorkDir>)
      ensures State() == dir
    {
      var d := if dir.Some? then dir.value else EMPTY_DIR;
      present := dir.Some?;
      iso, kubeconfig, password, manifest := d.iso, d.kubeconfig, d.password, d.manifest;
    }

    function Contents(): WorkDir
      reads this
    {
      WorkDir(iso, kubeconfig, password, manifest)
    }

    function State(): Option<WorkDir>
      reads this
    {
      if present then Some(Contents()) else None
    }

    /** Creates the directory unless it is there; a new one is empty. */
    method MkdirAll(fails: bool) returns (err: bool)
      modifies this
      ensures err == fails
      ensures err ==> State() == old(State())
      ensures !err ==> State() == Some(if old(present) then old(Contents()) else EMPTY_DIR)
    {
      if fails {
        return true;
      }
      if !present {
        present := true;
        iso, kubeconfig, password, manifest := None, None, None, None;
      }
      err := false;
    }

    method RemoveContents(r: Removal)
      modifies this
      ensures present == old(present)
      ensures Contents() == AfterRemoval(old(Contents()), r)
    {
      if r.Removed? || !r.iso {
        iso := None;
      }
      if r.Removed? || !r.kubeconfig {
        kubeconfig := None;
      }
      if r.Removed? || !r.password {
        password := None;
      }
      if r.Removed? || !r.manifest {
        manifest := None;
      }
    }

    /** Manifest, kubeconfig and password are written in this order. */
    method WriteReinstall(id: IdentityData, c: Config, f: ReinstallFaults) returns (err: bool)
      modifies this
      ensures present == old(present)
      ensures Rebuilt(Contents(), err) == WriteReinstallData(old(Contents()), id, c, f)
    {
      if f.assets {
        return true;
      }
      var secretConfig := Decode(id.seed);
      if secretConfig.None? {
        return true;
      }
      if c.baseDomain != secretConfig.value.baseDomain {
        return true;
      }
      if c.clusterName != secretConfig.value.clusterName {
        return true;
      }
      var config := ManifestFor(c, secretConfig.value.passwordHash, secretConfig.value.crypto);
      if f.manifest {
        return true;
      }
      manifest := Some(ManifestOf(config));
      if f.kubeconfig {
        return true;
      }
      kubeconfig := Some(id.kubeconfig);
      if f.password {
        return true;
      }
      password := Some(id.password);
      err := false;
    }

    method CreateIso(c: Config, run: InstallerRun) returns (err: bool)
      modifies this
      ensures present == old(present)
      ensures Rebuilt(Contents(), err) == CreateInstallationIso(old(Contents()), c, run)
    {
      var target := InstallerTarget(Contents(), c, run.generation);
      if !run.fails || run.iso {
        iso := target.iso;
      }
      if !run.fails || run.kubeconfig {
        kubeconfig := target.kubeconfig;
      }
      if !run.fails || run.password {
        password := target.password;
      }
      if !run.fails || run.manifest {
        manifest := target.manifest;
      }
      err := run.fails;
    }

    /** The function run under the write lock. */
    method RunLocked(store: SecretStore, deployment: string, c: Config, f: BuildFaults) returns (err: bool)
      requires present
      modifies this, store
      ensures var locked := f.(dirs := false, lock := false, busy := false);
              BuildEnd(store.secrets, State(), if err then BuildFailed else BuildDone) ==
                WriteInputData(old(store.secrets), old(State()), deployment, c, locked)
    {
      if Built(Contents()) {
        err := store.EnsureAll(deployment, Files(Contents()), f.ensure);
        return;
      }
      RemoveContents(f.removal);
      if f.workDir || f.inputs {
        return true;
      }
      var id, secretsExist, readErr := store.ClusterIdentitySecrets(deployment, f.read);
      if readErr {
        return true;
      }
      if secretsExist && f.tempDir {
        return true;
      }
      if f.configs || c.clusterId == "" || c.infraId == "" {
        return true;
      }
      if secretsExist {
        err := WriteReinstall(id, c, f.reinstall);
        if err {
          return;
        }
      }
      err := CreateIso(c, f.installer);
      if err {
        return;
      }
      err := store.EnsureAll(deployment, Files(Contents()), f.ensure);
    }

    method WriteInput(store: SecretStore, deployment: string, c: Config, f: BuildFaults) returns (result: BuildResult)
      modifies this, store
      ensures BuildEnd(store.secrets, State(), result) ==
                WriteInputData(old(store.secrets), old(State()), deployment, c, f)
    {
      var err := MkdirAll(f.dirs);
      if err || f.lock {
        return BuildFailed;
      }
      if f.busy {
        return BuildBusy;
      }
      err := RunLocked(store, deployment, c, f);
      result := if err then BuildFailed else BuildDone;
    }
  }
}
