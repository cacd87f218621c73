/**
 Credential descriptors handed to the TLS configuration layer.

 The four Vert.x option classes the scenario catalog builds (`JksOptions`,
 `PfxOptions`, `PemKeyCertOptions`, `PemTrustOptions`) are modelled only as
 what they describe: which fixture files to load and with which password.
 One record shape covers all four; `WellFormed` states which combinations of
 paths and password the catalog gives each kind.
 */
module Credentials {
  import opened Wrappers

  type Path = string

  /** Which Vert.x option class a bundle stands for. */
  datatype BundleKind =
    | JksStore    // JksOptions: a Java keystore file plus its password
    | PfxStore    // PfxOptions: a PKCS#12 container plus its password
    | PemKeyCert  // PemKeyCertOptions: a PEM private key and a PEM certificate
    | PemTrust    // PemTrustOptions: one or more PEM trust-anchor certificates

  /** `paths` is ordered: the store file; or the key then the certificate; or the trust anchors. */
  datatype CredentialBundle = CredentialBundle(kind: BundleKind, paths: seq<Path>, password: Option<string>)

  /** Keystore-format kinds: the only ones that carry a password. */
  predicate IsStore(k: BundleKind) {
    k == JksStore || k == PfxStore
  }

  /** A bundle describes key and certificate material (Java `KeyCertOptions`). */
  predicate IsKeyCertKind(k: BundleKind) {
    k != PemTrust
  }

  /** A bundle describes trust anchors (Java `TrustOptions`). */
  predicate IsTrustKind(k: BundleKind) {
    k != PemKeyCert
  }

  /**
   The shape of every descriptor the catalog builds. The Vert.x classes
   themselves are looser: a store may have a null password and a
   `PemTrustOptions` with no `addCertPath` call has no paths.
   */
  predicate WellFormed(b: CredentialBundle) {
    match b.kind
    case JksStore | PfxStore => |b.paths| == 1 && b.password.Some?
    case PemKeyCert => |b.paths| == 2 && b.password.None?
    case PemTrust => |b.paths| >= 1 && b.password.None?
  }

  /** The extension every fixture file of this kind carries in the catalog. */
  function Extension(k: BundleKind): string {
    match k
    case JksStore => ".jks"
    case PfxStore => ".p12"
    case PemKeyCert | PemTrust => ".pem"
  }

  // Builders: one per Vert.x option class, mirroring the `setPath`/`setPassword`,
  // `setKeyPath`/`setCertPath` and `addCertPath` chains that fill it.

  function JksOptions(path: Path, password: string): (b: CredentialBundle)
    ensures WellFormed(b) && b.kind == JksStore
    ensures StorePath(b) == path && StorePassword(b) == password
  {
    CredentialBundle(JksStore, [path], Some(password))
  }

  function PfxOptions(path: Path, password: string): (b: CredentialBundle)
    ensures WellFormed(b) && b.kind == PfxStore
    ensures StorePath(b) == path && StorePassword(b) == password
  {
    CredentialBundle(PfxStore, [path], Some(password))
  }

  function PemKeyCertOptions(keyPath: Path, certPath: Path): (b: CredentialBundle)
    ensures WellFormed(b) && b.kind == PemKeyCert
    ensures KeyPath(b) == keyPath && CertPath(b) == certPath
  {
    CredentialBundle(PemKeyCert, [keyPath, certPath], None)
  }

  /** `PemTrustOptions` starts with no paths; each `addCertPath` appends one. */
  function PemTrustOptions(certPaths: seq<Path>): (b: CredentialBundle)
    requires |certPaths| >= 1
    ensures WellFormed(b) && b.kind == PemTrust
    ensures TrustPaths(b) == certPaths
  {
    CredentialBundle(PemTrust, certPaths, None)
  }

  // Field getters, each defined on the kinds whose option class has that field.

  function StorePath(b: CredentialBundle): Path
    requires WellFormed(b) && IsStore(b.kind)
  {
    b.paths[0]
  }

  function StorePassword(b: CredentialBundle): string
    requires WellFormed(b) && IsStore(b.kind)
  {
    b.password.value
  }

  function KeyPath(b: CredentialBundle): Path
    requires WellFormed(b) && b.kind == PemKeyCert
  {
    b.paths[0]
  }

  function CertPath(b: CredentialBundle): Path
    requires WellFormed(b) && b.kind == PemKeyCert
  {
    b.paths[1]
  }

  function TrustPaths(b: CredentialBundle): seq<Path>
    requires WellFormed(b) && b.kind == PemTrust
  {
    b.paths
  }

  /** Rebuilds a bundle from its getters through the matching builder. */
  function Rebuild(b: CredentialBundle): CredentialBundle
    requires WellFormed(b)
  {
    match b.kind
    case JksStore => JksOptions(StorePath(b), StorePassword(b))
    case PfxStore => PfxOptions(StorePath(b), StorePassword(b))
    case PemKeyCert => PemKeyCertOptions(KeyPath(b), CertPath(b))
    case PemTrust => PemTrustOptions(TrustPaths(b))
  }

  /** Every well-formed bundle is exactly what its builder makes of its own fields. */
  lemma RebuildIdentity(b: CredentialBundle)
    requires WellFormed(b)
    ensures Rebuild(b) == b
  {
  }
}
