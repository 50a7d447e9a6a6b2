/**
 The three identity secrets of internal/credentials/credentials.go. A cluster identity is generated once
 by the installer and stored as an admin kubeconfig, an admin password and a seed reconfiguration manifest.
 File and secret contents are kept abstract: a generated kubeconfig or password is known by the generation
 that drew it, and a manifest carries the password hash and the retained crypto of a generation.
 */
module Credentials {
  import opened Base

  datatype Manifest = Manifest(
    passwordHash: nat,
    crypto: nat,
    clusterId: string,
    infraId: string,
    baseDomain: string,
    clusterName: string,
    rest: nat)

  datatype Bytes =
    | Empty
    | KubeconfigOf(generation: nat)
    | PasswordOf(generation: nat)
    | ManifestOf(manifest: Manifest)
    | Garbage(id: nat)

  /** JSON decoding of a seed reconfiguration. */
  function Decode(b: Bytes): Option<Manifest> {
    if b.ManifestOf? then Some(b.manifest) else None
  }

  // ---------------------------------------------------------------- names

  datatype SecretKind = AdminKubeconfig | AdminPassword | SeedReconfiguration

  datatype SecretName = SecretName(kind: SecretKind, deployment: string)

  function Suffix(kind: SecretKind): string {
    match kind
    case AdminKubeconfig => "-admin-kubeconfig"
    case AdminPassword => "-admin-password"
    case SeedReconfiguration => "-seed-reconfiguration"
  }

  function Render(n: SecretName): string {
    n.deployment + Suffix(n.kind)
  }

  /** Secrets of different kinds or of different deployments never share a name. */
  lemma RenderInjective(a: SecretName, b: SecretName)
    requires Render(a) == Render(b)
    ensures a == b
  {
    var text := Render(a);
    assert text[|text| - 1] == Suffix(a.kind)[|Suffix(a.kind)| - 1];
    assert text[|text| - 1] == Suffix(b.kind)[|Suffix(b.kind)| - 1];
    assert Suffix(AdminKubeconfig)[16] == 'g' && Suffix(AdminPassword)[14] == 'd';
    assert Suffix(SeedReconfiguration)[20] == 'n';
    assert a.deployment == text[..|text| - |Suffix(a.kind)|];
    assert b.deployment == text[..|text| - |Suffix(b.kind)|];
  }

  // -------------------------------------------------------------- reading

  /** Stored secrets; a secret may lack the one key that is read from it. */
  type Secrets = map<SecretName, Option<Bytes>>

  /** The stored content, when the secret, its key and at least one byte are there. */
  function Content(s: Secrets, n: SecretName): Option<Bytes> {
    if n in s && s[n].Some? && s[n].value != Empty then s[n] else None
  }

  datatype IdentityData = IdentityData(kubeconfig: Bytes, password: Bytes, seed: Bytes)

  /** The identity of a deployment, present when all three secrets are. */
  function IdentityOf(s: Secrets, deployment: string): Option<IdentityData> {
    var k := Content(s, SecretName(AdminKubeconfig, deployment));
    var p := Content(s, SecretName(AdminPassword, deployment));
    var m := Content(s, SecretName(SeedReconfiguration, deployment));
    if k.Some? && p.Some? && m.Some? then Some(IdentityData(k.value, p.value, m.value)) else None
  }

  /** Which of the three lookups fails with something other than "not found". */
  datatype ReadFaults = ReadFaults(kubeconfig: bool, password: bool, seed: bool)

  datatype IdentityRead = IdentityRead(data: Option<IdentityData>, err: bool)

  function ReadIdentity(s: Secrets, deployment: string, f: ReadFaults): (r: IdentityRead)
    ensures r.data.Some? ==> !r.err && r.data == IdentityOf(s, deployment)
    ensures !r.err && r.data.None? ==> IdentityOf(s, deployment).None?
  {
    if f.kubeconfig then IdentityRead(None, true)
    else if Content(s, SecretName(AdminKubeconfig, deployment)).None? then IdentityRead(None, false)
    else if f.password then IdentityRead(None, true)
    else if Content(s, SecretName(AdminPassword, deployment)).None? then IdentityRead(None, false)
    else if f.seed then IdentityRead(None, true)
    else IdentityRead(IdentityOf(s, deployment), false)
  }

  // -------------------------------------------------------------- writing

  datatype EnsureFault = EnsureFault(get: bool, write: WriteFault)

  datatype Ensured = Ensured(secrets: Secrets, err: bool)

  /** Makes one secret carry the content of a file. */
  function EnsureSecret(s: Secrets, n: SecretName, file: Option<Bytes>, f: EnsureFault): (r: Ensured)
    ensures !r.err ==> file.Some? && n in r.secrets && r.secrets[n] == file
    ensures r.secrets == s || (file.Some? && r.secrets == s[n := file])
  {
    if file.None? || f.get then Ensured(s, true)
    else if n in s && s[n] == file then Ensured(s, false)
    else match f.write
      case Fine => Ensured(s[n := file], false)
      case Lost => Ensured(s, true)
      case DoneButFailed => Ensured(s[n := file], true)
  }

  datatype EnsureFaults = EnsureFaults(password: EnsureFault, kubeconfig: EnsureFault, seed: EnsureFault)

  /** The identity files of a working directory. */
  datatype IdentityFiles = IdentityFiles(kubeconfig: Option<Bytes>, password: Option<Bytes>, manifest: Option<Bytes>)

  /** Password first, kubeconfig second, seed reconfiguration last; the first failure ends it. */
  function EnsureCreds(s: Secrets, deployment: string, files: IdentityFiles, f: EnsureFaults): Ensured {
    var p := EnsureSecret(s, SecretName(AdminPassword, deployment), files.password, f.password);
    if p.err then p
    else
      var k := EnsureSecret(p.secrets, SecretName(AdminKubeconfig, deployment), files.kubeconfig, f.kubeconfig);
      if k.err then k
      else EnsureSecret(k.secrets, SecretName(SeedReconfiguration, deployment), files.manifest, f.seed)
  }

  /** The deployment's three secrets hold exactly the three files. */
  predicate Mirrors(s: Secrets, deployment: string, files: IdentityFiles) {
    var password := SecretName(AdminPassword, deployment);
    var kubeconfig := SecretName(AdminKubeconfig, deployment);
    var seed := SecretName(SeedReconfiguration, deployment);
    && files.password.Some? && files.kubeconfig.Some? && files.manifest.Some?
    && password in s && s[password] == files.password
    && kubeconfig in s && s[kubeconfig] == files.kubeconfig
    && seed in s && s[seed] == files.manifest
  }

  predicate SameElsewhere(s: Secrets, t: Secrets, deployment: string) {
    && (forall n :: n in s && n.deployment != deployment ==> n in t && t[n] == s[n])
    && (forall n :: n in t && n.deployment != deployment ==> n in s)
  }

  /** The file a secret is made from. */
  function FileOf(kind: SecretKind, files: IdentityFiles): Option<Bytes> {
    match kind
    case AdminKubeconfig => files.kubeconfig
    case AdminPassword => files.password
    case SeedReconfiguration => files.manifest
  }

  /** Some of the deployment's secrets have been made from their files, and nothing else has changed. */
  predicate OnlyFromFiles(s: Secrets, t: Secrets, deployment: string, files: IdentityFiles) {
    && (forall n :: n in s ==> n in t)
    && (forall n :: n in t && (n !in s || t[n] != s[n]) ==> n.deployment == deployment && t[n] == FileOf(n.kind, files))
  }

  lemma EnsureSecretEffect(s: Secrets, t: Secrets, n: SecretName, files: IdentityFiles, f: EnsureFault)
    requires OnlyFromFiles(s, t, n.deployment, files)
    ensures OnlyFromFiles(s, EnsureSecret(t, n, FileOf(n.kind, files), f).secrets, n.deployment, files)
  {
  }

  /**
   Success makes the secrets mirror the files; whatever happens, no secret disappears, other deployments are
   untouched, and a secret differs from before only by holding its file.
   */
  lemma EnsureCredsEffect(s: Secrets, deployment: string, files: IdentityFiles, f: EnsureFaults)
    ensures var r := EnsureCreds(s, deployment, files, f);
      && (!r.err ==> Mirrors(r.secrets, deployment, files))
      && OnlyFromFiles(s, r.secrets, deployment, files)
      && SameElsewhere(s, r.secrets, deployment)
  {
    hide OnlyFromFiles, SameElsewhere;
    var password, kubeconfig := SecretName(AdminPassword, deployment), SecretName(AdminKubeconfig, deployment);
    var p := EnsureSecret(s, password, files.password, f.password);
    var k := EnsureSecret(p.secrets, kubeconfig, files.kubeconfig, f.kubeconfig);
    OnlyFromFilesRefl(s, deployment, files);
    EnsureSecretEffect(s, s, password, files, f.password);
    EnsureSecretEffect(s, p.secrets, kubeconfig, files, f.kubeconfig);
    EnsureSecretEffect(s, k.secrets, SecretName(SeedReconfiguration, deployment), files, f.seed);
    FromFilesElsewhere(s, EnsureCreds(s, deployment, files, f).secrets, deployment, files);
  }

  lemma OnlyFromFilesRefl(s: Secrets, deployment: string, files: IdentityFiles)
    ensures OnlyFromFiles(s, s, deployment, files)
  {
  }

  lemma FromFilesElsewhere(s: Secrets, t: Secrets, deployment: string, files: IdentityFiles)
    requires OnlyFromFiles(s, t, deployment, files)
    ensures SameElsewhere(s, t, deployment)
  {
  }

  /** The seed secret is the last one written: if it changed, the other two already hold their files. */
  lemma SeedIsWrittenLast(s: Secrets, deployment: string, files: IdentityFiles, f: EnsureFaults)
    ensures var r := EnsureCreds(s, deployment, files, f);
            var seed := SecretName(SeedReconfiguration, deployment);
            seed in r.secrets && (seed !in s || r.secrets[seed] != s[seed]) ==> Mirrors(r.secrets, deployment, files)
  {
  }

  /** Files equal to complete secrets leave the secrets alone, whatever fails. */
  lemma EnsureCredsIdempotent(s: Secrets, deployment: string, files: IdentityFiles, f: EnsureFaults)
    requires Mirrors(s, deployment, files)
    ensures EnsureCreds(s, deployment, files, f).secrets == s
  {
  }

  // ----------------------------------------------------------- coherence

  /** The three parts were drawn together. */
  ghost predicate Coherent(id: IdentityData) {
    exists g: nat :: PartsOf(id, g)
  }

  ghost predicate PartsOf(id: IdentityData, g: nat) {
    && id.kubeconfig == KubeconfigOf(g)
    && id.password == PasswordOf(g)
    && id.seed.ManifestOf?
    && id.seed.manifest.passwordHash == g
    && id.seed.manifest.crypto == g
  }

  /** What must never change once an identity is complete. */
  datatype Kernel = Kernel(
    kubeconfig: Bytes, password: Bytes, passwordHash: nat, crypto: nat,
    clusterId: string, infraId: string, baseDomain: string, clusterName: string)

  function KernelOf(id: IdentityData): Kernel
    requires id.seed.ManifestOf?
  {
    var m := id.seed.manifest;
    Kernel(id.kubeconfig, id.password, m.passwordHash, m.crypto, m.clusterId, m.infraId, m.baseDomain, m.clusterName)
  }

  /** The secrets of a deployment are complete and of one generation, or there is no seed secret. */
  ghost predicate StoredOk(s: Secrets, deployment: string) {
    match IdentityOf(s, deployment)
    case Some(id) => Coherent(id) && id.seed.manifest.clusterId != "" && id.seed.manifest.infraId != ""
    case None => Content(s, SecretName(SeedReconfiguration, deployment)).None?
  }

  /** A complete identity of the first state is the same identity in the second. */
  predicate SameIdentity(s: Secrets, t: Secrets, deployment: string) {
    IdentityOf(s, deployment).Some? && IdentityOf(s, deployment).value.seed.ManifestOf? ==>
      && IdentityOf(t, deployment).Some? && IdentityOf(t, deployment).value.seed.ManifestOf?
      && KernelOf(IdentityOf(t, deployment).value) == KernelOf(IdentityOf(s, deployment).value)
  }

  // ------------------------------------------------- the code, step by step

  class SecretStore {
    var secrets: Secrets

    constructor (secrets: Secrets)
      ensures this.secrets == secrets
    {
      this.secrets := secrets;
    }

    method SecretExistsAndValid(n: SecretName, data: Bytes, getFails: bool) returns (valid: bool, err: bool)
      ensures err == getFails
      ensures !err ==> (valid <==> n in secrets && secrets[n] == Some(data))
    {
      if getFails {
        return false, true;
      }
      if n !in secrets {
        return false, false;
      }
      if secrets[n].None? {
        return false, false;
      }
      return secrets[n].value == data, false;
    }

    method Ensure(n: SecretName, file: Option<Bytes>, f: EnsureFault) returns (err: bool)
      modifies this
      ensures Ensured(secrets, err) == EnsureSecret(old(secrets), n, file, f)
    {
      if file.None? {
        return true;
      }
      var valid, failed := SecretExistsAndValid(n, file.value, f.get);
      if failed || valid {
        return failed;
      }
      if f.write != Lost {
        secrets := secrets[n := file];
      }
      err := f.write != Fine;
    }

    method EnsureAll(deployment: string, files: IdentityFiles, f: EnsureFaults) returns (err: bool)
      modifies this
      ensures Ensured(secrets, err) == EnsureCreds(old(secrets), deployment, files, f)
    {
      err := Ensure(SecretName(AdminPassword, deployment), files.password, f.password);
      if err {
        return;
      }
      err := Ensure(SecretName(AdminKubeconfig, deployment), files.kubeconfig, f.kubeconfig);
      if err {
        return;
      }
      err := Ensure(SecretName(SeedReconfiguration, deployment), files.manifest, f.seed);
    }

    method SecretContent(n: SecretName, getFails: bool) returns (val: Bytes, present: bool, err: bool)
      ensures err == getFails
      ensures !err ==> Content(secrets, n) == if present then Some(val) else None
    {
      if getFails {
        return Empty, false, true;
      }
      if n !in secrets || secrets[n].None? {
        return Empty, false, false;
      }
      return secrets[n].value, secrets[n].value != Empty, false;
    }

    /** Fills the result field by field and stops at the first secret that is missing or unreadable. */
    method ClusterIdentitySecrets(deployment: string, f: ReadFaults) returns (id: IdentityData, exist: bool, err: bool)
      ensures IdentityRead(if exist then Some(id) else None, err) == ReadIdentity(secrets, deployment, f)
    {
      id, exist := IdentityData(Empty, Empty, Empty), false;
      var val, present;
      val, present, err := SecretContent(SecretName(AdminKubeconfig, deployment), f.kubeconfig);
      id := id.(kubeconfig := val);
      if !present || err {
        return;
      }
      val, present, err := SecretContent(SecretName(AdminPassword, deployment), f.password);
      id := id.(password := val);
      if !present || err {
        return;
      }
      val, present, err := SecretContent(SecretName(SeedReconfiguration, deployment), f.seed);
      id := id.(seed := val);
      if !present || err {
        return;
      }
      exist := true;
    }
  }
}
