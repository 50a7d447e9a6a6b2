/**
 Where the identity law ends, exactly: which builds keep every stored identity, and which remains of a failed
 removal end up in a new one. A condition is exact here if it holds just when no failure of the build can do harm.
 */
module BuildSafety {
  import opened Base
  import opened Credentials
  import opened ImageBuild

  // ------------------------------------------------- undisturbed builds

  const FINE := EnsureFault(false, Fine)

  /** Nothing fails but, perhaps, the removal of the previous directory, whose error is ignored. */
  function QuietBuild(removal: Removal, run: InstallerRun): BuildFaults {
    BuildFaults(false, false, false, removal, false, false, ReadFaults(false, false, false), false, false,
                ReinstallFaults(false, false, false, false), run, EnsureFaults(FINE, FINE, FINE))
  }

  /** An installer run that succeeds. */
  function Success(generation: nat): InstallerRun {
    InstallerRun(generation, false, true, true, true, true)
  }

  function Mark(file: Option<Bytes>): nat {
    match file
    case Some(KubeconfigOf(h)) => h
    case Some(PasswordOf(h)) => h
    case Some(ManifestOf(m)) => m.passwordHash
    case _ => 0
  }

  /** A generation that none of the files belongs to. */
  function NewGeneration(d: WorkDir): nat {
    Mark(d.iso) + Mark(d.kubeconfig) + Mark(d.password) + Mark(d.manifest) + 1
  }

  // ------------------------------------------------ keeping an identity

  /** The stored identity of a deployment has survived, and what is stored now is sound. */
  ghost predicate IdentityKept(s: Secrets, t: Secrets, deployment: string) {
    StoredOk(t, deployment) && SameIdentity(s, t, deployment)
  }

  /** The identity files of a complete directory may be stored for this deployment. */
  ghost predicate SafeToStore(s: Secrets, d: WorkDir, deployment: string)
    requires AllIdentityFiles(d)
  {
    match IdentityOf(s, deployment)
    case Some(id) =>
      d.kubeconfig.value == id.kubeconfig && d.password.value == id.password && SameKernel(d.manifest.value, id.seed)
    case None => SoundIdentity(d)
  }

  /** A whole identity of one generation, or one without a seed, which counts as none. */
  ghost predicate SoundIdentity(d: WorkDir)
    requires AllIdentityFiles(d)
  {
    || d.manifest == Some(Empty)
    || (&& Coherent(IdentityIn(d))
        && d.manifest.value.manifest.clusterId != "" && d.manifest.value.manifest.infraId != "")
  }

  /** What a build may add to when it generates an identity. */
  ghost predicate SafeRemains(left: WorkDir) {
    || left.manifest == Some(Empty)
    || NoIdentityFile(left)
    || (AllIdentityFiles(left) && SoundIdentity(left))
  }

  /**
   The guard of a build, in terms of what is stored and on disk before it: a complete directory must carry the
   identity it is stored for; a stored identity is rebuilt only under its own IDs, unless the base domain or the
   cluster name rules the rebuild out; and a new identity must not start from parts of another.
   */
  ghost predicate SafeToBuild(s: Secrets, dir: Option<WorkDir>, deployment: string, c: Config, removal: Removal) {
    var d := Present(dir);
    if Built(d) then SafeToStore(s, d, deployment)
    else if c.clusterId == "" || c.infraId == "" then true
    else match IdentityOf(s, deployment)
      case Some(id) =>
        id.seed.ManifestOf? && ValidForReinstall(c, id.seed.manifest) ==>
          c.clusterId == id.seed.manifest.clusterId && c.infraId == id.seed.manifest.infraId
      case None => SafeRemains(AfterRemoval(d, removal))
  }

  // ------------------------------------------------------ it is enough

  lemma SafeStoreKeepsIdentity(s: Secrets, d: WorkDir, deployment: string, f: EnsureFaults)
    requires StoredOk(s, deployment) && AllIdentityFiles(d) && SafeToStore(s, d, deployment)
    ensures IdentityKept(s, EnsureCreds(s, deployment, Files(d), f).secrets, deployment)
  {
    var r := EnsureCreds(s, deployment, Files(d), f).secrets;
    EnsureCredsEffect(s, deployment, Files(d), f);
    SeedIsWrittenLast(s, deployment, Files(d), f);
    hide EnsureCreds;
    match IdentityOf(s, deployment) {
      case Some(id) =>
        var g: nat :| PartsOf(id, g);
        assert PartsOf(IdentityOf(r, deployment).value, g);
      case None =>
    }
  }

  /** A rebuild from a stored identity that reaches the end reproduces it under the IDs of the metadata. */
  lemma RebuiltFiles(s: Secrets, prior: WorkDir, deployment: string, c: Config, f: BuildFaults)
    requires IdentityOf(s, deployment).Some? && !Rebuild(s, prior, deployment, c, f).err
    ensures var id := IdentityOf(s, deployment).value; var d := Rebuild(s, prior, deployment, c, f).dir;
      && id.seed.ManifestOf? && ValidForReinstall(c, id.seed.manifest) && c.clusterId != "" && c.infraId != ""
      && d.kubeconfig == Some(id.kubeconfig) && d.password == Some(id.password)
      && d.manifest == Some(ManifestOf(ManifestFor(c, id.seed.manifest.passwordHash, id.seed.manifest.crypto)))
      && d.iso == d.manifest
  {
    hide Content;
  }

  /** A generating build that reaches the end completes what was left. */
  lemma GeneratedFiles(s: Secrets, prior: WorkDir, deployment: string, c: Config, f: BuildFaults)
    requires IdentityOf(s, deployment).None? && !Rebuild(s, prior, deployment, c, f).err
    ensures Rebuild(s, prior, deployment, c, f).dir ==
              InstallerTarget(AfterRemoval(prior, f.removal), c, f.installer.generation)
    ensures c.clusterId != "" && c.infraId != ""
  {
    hide Content;
  }

  lemma TargetIsSound(left: WorkDir, c: Config, g: nat)
    requires SafeRemains(left) && c.clusterId != "" && c.infraId != ""
    ensures SoundIdentity(InstallerTarget(left, c, g))
  {
    var d := InstallerTarget(left, c, g);
    if NoIdentityFile(left) {
      assert PartsOf(IdentityIn(d), g);
    } else if AllIdentityFiles(left) {
      assert IdentityIn(d) == IdentityIn(left);
    }
  }

  /** A guarded build keeps the identity, whichever of its operations fail. */
  lemma SafeBuildKeepsIdentity(s: Secrets, dir: Option<WorkDir>, deployment: string, c: Config, f: BuildFaults)
    requires StoredOk(s, deployment) && SafeToBuild(s, dir, deployment, c, f.removal)
    ensures IdentityKept(s, WriteInputData(s, dir, deployment, c, f).secrets, deployment)
  {
    hide EnsureCreds, Rebuild, Content, KernelOf;
    var d := Present(dir);
    if Built(d) {
      SafeStoreKeepsIdentity(s, d, deployment, f.ensure);
    } else if !Rebuild(s, d, deployment, c, f).err {
      var r := Rebuild(s, d, deployment, c, f).dir;
      if IdentityOf(s, deployment).Some? {
        RebuiltFiles(s, d, deployment, c, f);
      } else {
        GeneratedFiles(s, d, deployment, c, f);
        TargetIsSound(AfterRemoval(d, f.removal), c, f.installer.generation);
      }
      SafeStoreKeepsIdentity(s, r, deployment, f.ensure);
    }
  }

  /** A build touches the secrets of its own deployment only. */
  lemma BuildStaysAtHome(s: Secrets, dir: Option<WorkDir>, deployment: string, c: Config, f: BuildFaults)
    ensures SameElsewhere(s, WriteInputData(s, dir, deployment, c, f).secrets, deployment)
  {
    hide EnsureCreds, Rebuild, Mirrors, OnlyFromFiles;
    EnsureCredsEffect(s, deployment, Files(Present(dir)), f.ensure);
    EnsureCredsEffect(s, deployment, Files(Rebuild(s, Present(dir), deployment, c, f).dir), f.ensure);
  }

  /** What one deployment keeps is all that a build can spoil. */
  lemma ElsewhereIsKept(s: Secrets, t: Secrets, deployment: string, n: string)
    requires SameElsewhere(s, t, deployment) && n != deployment
    ensures IdentityOf(t, n) == IdentityOf(s, n)
    ensures Content(t, SecretName(SeedReconfiguration, n)) == Content(s, SecretName(SeedReconfiguration, n))
    ensures StoredOk(s, n) ==> IdentityKept(s, t, n)
  {
  }

  // ------------------------------------------------- it is necessary

  /** What an undisturbed build stores, when it stores anything. */
  lemma QuietBuildStores(s: Secrets, dir: Option<WorkDir>, deployment: string, c: Config, removal: Removal, g: nat)
    requires StoredOk(s, deployment)
    requires Built(Present(dir)) || (c.clusterId != "" && c.infraId != "")
    requires !Built(Present(dir)) && IdentityOf(s, deployment).Some? ==>
               ValidForReinstall(c, IdentityOf(s, deployment).value.seed.manifest)
    ensures var r := WriteInputData(s, dir, deployment, c, QuietBuild(removal, Success(g)));
      && r.result == BuildDone && PresentAndBuilt(r.dir)
      && Mirrors(r.secrets, deployment, Files(r.dir.value))
      && (Built(Present(dir)) ==> r.dir == dir)
      && (!Built(Present(dir)) ==>
            var b := Rebuild(s, Present(dir), deployment, c, QuietBuild(removal, Success(g)));
            !b.err && r.dir.value == b.dir)
  {
    hide Content, EnsureCreds;
    QuietStore(s, Present(dir), deployment);
    QuietStore(s, Rebuild(s, Present(dir), deployment, c, QuietBuild(removal, Success(g))).dir, deployment);
  }

  lemma QuietStore(s: Secrets, d: WorkDir, deployment: string)
    ensures AllIdentityFiles(d) ==>
              var r := EnsureCreds(s, deployment, Files(d), EnsureFaults(FINE, FINE, FINE));
              !r.err && Mirrors(r.secrets, deployment, Files(d))
  {
  }

  lemma MixtureIsUnsound(left: WorkDir, c: Config)
    requires !SafeRemains(left)
    ensures !SoundIdentity(InstallerTarget(left, c, NewGeneration(left)))
  {
    var d := InstallerTarget(left, c, NewGeneration(left));
    if AllIdentityFiles(left) {
      assert IdentityIn(d) == IdentityIn(left);
    }
  }

  /** Storing files that are not safe to store breaks the identity. */
  lemma UnsafeMirrorBreaks(s: Secrets, t: Secrets, d: WorkDir, deployment: string)
    requires StoredOk(s, deployment) && AllIdentityFiles(d) && !SafeToStore(s, d, deployment)
    requires Mirrors(t, deployment, Files(d))
    ensures !IdentityKept(s, t, deployment)
  {
  }

  /** Where the guard does not hold, the undisturbed build breaks the identity. */
  lemma UnsafeBuildBreaks(s: Secrets, dir: Option<WorkDir>, deployment: string, c: Config, removal: Removal)
    requires StoredOk(s, deployment) && !SafeToBuild(s, dir, deployment, c, removal)
    ensures var g := NewGeneration(AfterRemoval(Present(dir), removal));
            !IdentityKept(s, WriteInputData(s, dir, deployment, c, QuietBuild(removal, Success(g))).secrets, deployment)
  {
    hide WriteInputData, Rebuild, Content, Mirrors, KernelOf;
    var d, g := Present(dir), NewGeneration(AfterRemoval(Present(dir), removal));
    var f := QuietBuild(removal, Success(g));
    var r := WriteInputData(s, dir, deployment, c, f);
    QuietBuildStores(s, dir, deployment, c, removal, g);
    if !Built(d) {
      if IdentityOf(s, deployment).Some? {
        RebuiltFiles(s, d, deployment, c, f);
      } else {
        GeneratedFiles(s, d, deployment, c, f);
        MixtureIsUnsound(AfterRemoval(d, removal), c);
      }
    }
    UnsafeMirrorBreaks(s, r.secrets, r.dir.value, deployment);
  }

  /** No failure can make a build break the stored identity, if and only if the guard holds. */
  lemma BuildKeepsIdentityIff(s: Secrets, dir: Option<WorkDir>, deployment: string, c: Config, removal: Removal)
    requires StoredOk(s, deployment)
    ensures (forall f: BuildFaults :: f.removal == removal ==>
               IdentityKept(s, WriteInputData(s, dir, deployment, c, f).secrets, deployment))
            <==> SafeToBuild(s, dir, deployment, c, removal)
  {
    hide WriteInputData, SafeToBuild, IdentityKept;
    if SafeToBuild(s, dir, deployment, c, removal) {
      forall f: BuildFaults | f.removal == removal
        ensures IdentityKept(s, WriteInputData(s, dir, deployment, c, f).secrets, deployment)
      {
        SafeBuildKeepsIdentity(s, dir, deployment, c, f);
      }
    } else {
      UnsafeBuildBreaks(s, dir, deployment, c, removal);
      assert QuietBuild(removal, Success(NewGeneration(AfterRemoval(Present(dir), removal)))).removal == removal;
    }
  }

  /**
   The same for one build that reports success: a complete identity is what it was exactly when the files of a complete
   directory carry it, or, when they are rebuilt, when the metadata has its IDs.
   */
  lemma StoredIdentitySurvivesIff(s: Secrets, dir: Option<WorkDir>, deployment: string, c: Config, f: BuildFaults)
    requires IdentityOf(s, deployment).Some? && IdentityOf(s, deployment).value.seed.ManifestOf?
    requires WriteInputData(s, dir, deployment, c, f).result == BuildDone
    ensures var id := IdentityOf(s, deployment).value; var d := Present(dir);
      SameIdentity(s, WriteInputData(s, dir, deployment, c, f).secrets, deployment) <==>
        if Built(d)
        then && d.kubeconfig.value == id.kubeconfig && d.password.value == id.password
             && SameKernel(d.manifest.value, id.seed)
        else c.clusterId == id.seed.manifest.clusterId && c.infraId == id.seed.manifest.infraId
  {
    hide EnsureCreds, Rebuild;
    var r := WriteInputData(s, dir, deployment, c, f);
    BuildDoneMirrors(s, dir, deployment, c, f);
    if !Built(Present(dir)) {
      RebuiltFiles(s, Present(dir), deployment, c, f);
    }
  }

  /**
   An image that a successful build has made embeds the configuration of this call, to the letter, and so does the
   manifest beside it; a manifest that an ignored removal error left behind, with no identity stored, is used instead.
   */
  lemma NewImageEmbedsConfig(s: Secrets, dir: Option<WorkDir>, name: string, c: Config, f: BuildFaults)
    requires !PresentAndBuilt(dir) && WriteInputData(s, dir, name, c, f).result == BuildDone
    ensures var d := WriteInputData(s, dir, name, c, f).dir.value;
            var left := AfterRemoval(Present(dir), f.removal).manifest;
      && d.iso == d.manifest
      && (if IdentityOf(s, name).Some? || left.None?
          then && d.manifest.Some? && d.manifest.value.ManifestOf?
               && var m := d.manifest.value.manifest;
                  && m.clusterId == c.clusterId && m.infraId == c.infraId
                  && m.baseDomain == c.baseDomain && m.clusterName == c.clusterName && m.rest == c.rest
          else d.manifest == left)
  {
    hide EnsureCreds, Content;
  }

  /** The image of a successful build: the one that was there, or one made from the manifest beside it. */
  lemma BuildDoneImage(s: Secrets, dir: Option<WorkDir>, deployment: string, c: Config, f: BuildFaults)
    requires WriteInputData(s, dir, deployment, c, f).result == BuildDone
    ensures var r := WriteInputData(s, dir, deployment, c, f).dir;
      && PresentAndBuilt(r)
      && if PresentAndBuilt(dir) then r == dir else r.value.iso == r.value.manifest
  {
    hide EnsureCreds, Rebuild;
    var d := Present(dir);
    if !Built(d) {
      if IdentityOf(s, deployment).Some? {
        RebuiltFiles(s, d, deployment, c, f);
      } else {
        GeneratedFiles(s, d, deployment, c, f);
      }
    }
  }

  // ------------------------------------------------- remains of a failed removal

  /** A file that the generation `g` did not write. */
  predicate Foreign(file: Option<Bytes>, g: nat) {
    match file
    case Some(KubeconfigOf(h)) => h != g
    case Some(PasswordOf(h)) => h != g
    case Some(ManifestOf(m)) => m.passwordHash != g && m.crypto != g
    case _ => true
  }

  /**
   The error of removing the previous directory is ignored. Whatever the installer returns, once all four files exist
   they hold an identity of one generation exactly when nothing of an identity was left behind, or a coherent whole.
   */
  lemma LeftoversDecideCoherence(s: Secrets, prior: WorkDir, deployment: string, c: Config, f: BuildFaults)
    requires IdentityOf(s, deployment).None? && Built(Rebuild(s, prior, deployment, c, f).dir) && !Built(prior)
    requires var left := AfterRemoval(prior, f.removal); var g := f.installer.generation;
             Foreign(left.kubeconfig, g) && Foreign(left.password, g) && Foreign(left.manifest, g)
    ensures var left := AfterRemoval(prior, f.removal);
      Coherent(IdentityIn(Rebuild(s, prior, deployment, c, f).dir)) <==>
        NoIdentityFile(left) || (AllIdentityFiles(left) && Coherent(IdentityIn(left)))
  {
    hide Content;
    var left := AfterRemoval(prior, f.removal);
    var d := Rebuild(s, prior, deployment, c, f).dir;
    if NoIdentityFile(left) {
      assert PartsOf(IdentityIn(d), f.installer.generation);
    } else if AllIdentityFiles(left) {
      assert IdentityIn(d) == IdentityIn(left);
    }
  }

  /** The installer run that does the most harm with these remains: it fails before it replaces an old image. */
  function WorstRun(left: WorkDir): InstallerRun {
    if left.iso.Some? then InstallerRun(NewGeneration(left), true, false, true, true, true)
    else Success(NewGeneration(left))
  }

  lemma WorstRunDoesHarm(s: Secrets, prior: WorkDir, deployment: string, c: Config, removal: Removal)
    requires IdentityOf(s, deployment).None? && !Built(prior) && c.clusterId != "" && c.infraId != ""
    requires !HarmlessRemains(AfterRemoval(prior, removal), c.clusterId, c.infraId)
    ensures var d := Rebuild(s, prior, deployment, c, QuietBuild(removal, WorstRun(AfterRemoval(prior, removal)))).dir;
            Built(d) && !OneGeneration(d, c.clusterId, c.infraId)
  {
    hide Content;
    var left := AfterRemoval(prior, removal);
    var d := Rebuild(s, prior, deployment, c, QuietBuild(removal, WorstRun(left))).dir;
    if AllIdentityFiles(left) {
      assert IdentityIn(d) == IdentityIn(left);
    } else if Coherent(IdentityIn(d)) {
      var h: nat :| PartsOf(IdentityIn(d), h);
      assert h == NewGeneration(left);
    }
  }

  /**
   Exactly which remains are harmless: no installer run, successful or failed at any point, can turn them into a
   complete directory with files of two generations, an image of another one, or other IDs, if and only if there
   is no image among them and they are nothing or a whole identity under the right IDs.
   */
  lemma RemainsAreHarmlessIff(s: Secrets, prior: WorkDir, deployment: string, c: Config, removal: Removal)
    requires IdentityOf(s, deployment).None? && !Built(prior) && c.clusterId != "" && c.infraId != ""
    ensures (forall f: BuildFaults :: f.removal == removal && Built(Rebuild(s, prior, deployment, c, f).dir) ==>
               OneGeneration(Rebuild(s, prior, deployment, c, f).dir, c.clusterId, c.infraId))
            <==> HarmlessRemains(AfterRemoval(prior, removal), c.clusterId, c.infraId)
  {
    hide Rebuild, OneGeneration, HarmlessRemains;
    if HarmlessRemains(AfterRemoval(prior, removal), c.clusterId, c.infraId) {
      forall f: BuildFaults | f.removal == removal && Built(Rebuild(s, prior, deployment, c, f).dir)
        ensures OneGeneration(Rebuild(s, prior, deployment, c, f).dir, c.clusterId, c.infraId)
      {
        RebuildGenerates(s, prior, deployment, c, f);
      }
    } else {
      WorstRunDoesHarm(s, prior, deployment, c, removal);
      assert QuietBuild(removal, WorstRun(AfterRemoval(prior, removal))).removal == removal;
    }
  }

  // ---------------------------------------------------------- at one input

  const CONFIG := Config("id", "infra", "example.com", "spoke", 0)

  /** Two calls in a row, the second one undisturbed. */
  function TwoBuilds(dir: WorkDir, f: BuildFaults): BuildEnd {
    var first := WriteInputData(map[], Some(dir), "spoke", CONFIG, f);
    WriteInputData(first.secrets, first.dir, "spoke", CONFIG, QuietBuild(Removed, Success(3)))
  }

  /**
   A kubeconfig of generation 1 survives the removal, and the installer of generation 2 fails after writing every file.
   The next, undisturbed call stores the two together.
   */
  lemma SurvivingKubeconfigIsMixedIn()
    ensures var dir := EMPTY_DIR.(kubeconfig := Some(KubeconfigOf(1)));
            var f := QuietBuild(Kept(true, true, true, true), InstallerRun(2, true, true, true, true, true));
            var r := TwoBuilds(dir, f);
      && r.result == BuildDone && IdentityOf(r.secrets, "spoke").Some?
      && IdentityOf(r.secrets, "spoke").value.kubeconfig == KubeconfigOf(1)
      && IdentityOf(r.secrets, "spoke").value.password == PasswordOf(2)
      && !Coherent(IdentityOf(r.secrets, "spoke").value)
  {
  }

  /**
   Only an image of generation 1 survives, and the installer of generation 2 fails after the three identity files.
   The next call stores generation 2, and the image on disk still embeds generation 1.
   */
  lemma SurvivingImageIsServed()
    ensures var earlier := ManifestOf(ManifestFor(CONFIG, 1, 1));
            var f := QuietBuild(Kept(true, true, true, true), InstallerRun(2, true, false, true, true, true));
            var r := TwoBuilds(EMPTY_DIR.(iso := Some(earlier)), f);
      && r.result == BuildDone && PresentAndBuilt(r.dir) && IdentityOf(r.secrets, "spoke").Some?
      && PartsOf(IdentityOf(r.secrets, "spoke").value, 2)
      && r.dir.value.iso == Some(earlier) && !SameKernel(earlier, IdentityOf(r.secrets, "spoke").value.seed)
  {
  }

  /** The call that stores another deployment's image and then loses a write mixes two generations. */
  lemma ForeignImageMixesGenerations(s: Secrets, d: WorkDir, deployment: string, c: Config, f: BuildFaults, g: nat,
                                     h: nat)
    requires IdentityOf(s, deployment).Some? && PartsOf(IdentityOf(s, deployment).value, g)
    requires Built(d) && d.password == Some(PasswordOf(h)) && d.kubeconfig == Some(KubeconfigOf(h)) && g != h
    requires !f.dirs && !f.lock && !f.busy && !f.ensure.password.get && f.ensure.password.write == Fine
    requires f.ensure.kubeconfig.get || f.ensure.kubeconfig.write == Lost
    ensures var r := WriteInputData(s, Some(d), deployment, c, f);
            IdentityOf(r.secrets, deployment).Some? && !Coherent(IdentityOf(r.secrets, deployment).value)
  {
    var r := WriteInputData(s, Some(d), deployment, c, f);
    var id := IdentityOf(r.secrets, deployment).value;
    assert id.password == PasswordOf(h) && id.kubeconfig == KubeconfigOf(g);
  }
}
