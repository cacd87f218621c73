/**
 Which fixture file each role is given. Store and key/cert files are named
 by side, role, signing authority and extension, with a `mim-` prefix for
 the `MIM` keystore; CA certificates live in their own directory
 (`root-ca/` or `int-ca/`). The lemmas here compose each expected name from
 those parts, independently of `Resolve`, and show the catalog hands out
 exactly that file.
 */
module TlsCertRoles {
  import opened Credentials
  import opened Fixtures
  import opened TlsCert

  /** The side of the connection an accessor configures. */
  function SideName(a: Accessor): string {
    if a == ServerKeyCert || a == ServerTrust then "server" else "client"
  }

  /** The side whose certificate the other side trusts in the self-signed PEM scenario. */
  function PeerName(a: Accessor): string {
    if a == ServerKeyCert || a == ServerTrust then "client" else "server"
  }

  /** Infix of the store files signed by the root CA; `MIM` marks its keystore by a prefix instead. */
  function StoreAuthority(id: ScenarioId): string {
    if id == JksRootCa || id == Pkcs12RootCa then "-root-ca" else ""
  }

  /** The keystore or truststore file an accessor of a keystore-format scenario names. */
  function StoreFileName(id: ScenarioId, a: Accessor, k: BundleKind): Path {
    FixtureRoot
      + (if id == Mim then "mim-" else "")
      + SideName(a)
      + (if a.IsKeyCert() then "-keystore" else "-truststore")
      + StoreAuthority(id)
      + Extension(k)
  }

  /** Infix of the PEM certificate files by signing authority. */
  function CertAuthority(id: ScenarioId): string {
    match id
    case PemRootCa => "-root-ca"
    case PemCa => "-int-ca"
    case PemCaChain => "-ca-chain"
    case _ => ""
  }

  function KeyFileName(a: Accessor): Path {
    FixtureRoot + SideName(a) + "-key" + Extension(PemKeyCert)
  }

  function CertFileName(id: ScenarioId, side: string): Path {
    FixtureRoot + side + "-cert" + CertAuthority(id) + Extension(PemKeyCert)
  }

  /** Self-signed PEM trusts the peer's certificate; the CA scenarios trust a CA certificate. */
  function TrustFileName(id: ScenarioId, a: Accessor): Path {
    if id == Pem then CertFileName(Pem, PeerName(a))
    else FixtureRoot + (if id == PemCa then "int-ca" else "root-ca") + "/ca-cert" + Extension(PemTrust)
  }

  // Each fixture file is the name its parts compose. One file per lemma keeps
  // every string comparison small.

  lemma ServerKeystoreJksNamed()
    ensures StoreFileName(Jks, ServerKeyCert, JksStore) == ServerKeystoreJks
  {
  }

  lemma ServerTruststoreJksNamed()
    ensures StoreFileName(Jks, ServerTrust, JksStore) == ServerTruststoreJks
  {
  }

  lemma ClientTruststoreJksNamed()
    ensures StoreFileName(Jks, ClientTrust, JksStore) == ClientTruststoreJks
  {
  }

  lemma ClientKeystoreJksNamed()
    ensures StoreFileName(Jks, ClientKeyCert, JksStore) == ClientKeystoreJks
  {
  }

  lemma ServerKeystoreP12Named()
    ensures StoreFileName(Pkcs12, ServerKeyCert, PfxStore) == ServerKeystoreP12
  {
  }

  lemma ServerTruststoreP12Named()
    ensures StoreFileName(Pkcs12, ServerTrust, PfxStore) == ServerTruststoreP12
  {
  }

  lemma ClientTruststoreP12Named()
    ensures StoreFileName(Pkcs12, ClientTrust, PfxStore) == ClientTruststoreP12
  {
  }

  lemma ClientKeystoreP12Named()
    ensures StoreFileName(Pkcs12, ClientKeyCert, PfxStore) == ClientKeystoreP12
  {
  }

  // The longest names: their spelling is checked apart from the unfolding of
  // `StoreFileName`.

  lemma ServerKeystoreRootCaJksSpelled()
    ensures FixtureRoot + "server" + "-keystore" + "-root-ca" + ".jks" == ServerKeystoreRootCaJks
  {
  }

  lemma ServerKeystoreRootCaJksNamed()
    ensures StoreFileName(JksRootCa, ServerKeyCert, JksStore) == ServerKeystoreRootCaJks
  {
    ServerKeystoreRootCaJksSpelled();
  }

  lemma ClientTruststoreRootCaJksSpelled()
    ensures FixtureRoot + "client" + "-truststore" + "-root-ca" + ".jks" == ClientTruststoreRootCaJks
  {
  }

  lemma ClientTruststoreRootCaJksNamed()
    ensures StoreFileName(JksRootCa, ClientTrust, JksStore) == ClientTruststoreRootCaJks
  {
    ClientTruststoreRootCaJksSpelled();
  }

  lemma ServerKeystoreRootCaP12Spelled()
    ensures FixtureRoot + "server" + "-keystore" + "-root-ca" + ".p12" == ServerKeystoreRootCaP12
  {
  }

  lemma ServerKeystoreRootCaP12Named()
    ensures StoreFileName(Pkcs12RootCa, ServerKeyCert, PfxStore) == ServerKeystoreRootCaP12
  {
    ServerKeystoreRootCaP12Spelled();
  }

  lemma ClientTruststoreRootCaP12Spelled()
    ensures FixtureRoot + "client" + "-truststore" + "-root-ca" + ".p12" == ClientTruststoreRootCaP12
  {
  }

  lemma ClientTruststoreRootCaP12Named()
    ensures StoreFileName(Pkcs12RootCa, ClientTrust, PfxStore) == ClientTruststoreRootCaP12
  {
    ClientTruststoreRootCaP12Spelled();
  }

  lemma MimServerKeystoreJksNamed()
    ensures StoreFileName(Mim, ServerKeyCert, JksStore) == MimServerKeystoreJks
  {
  }

  lemma ServerKeyPemNamed()
    ensures KeyFileName(ServerKeyCert) == ServerKeyPem
  {
  }

  lemma ClientKeyPemNamed()
    ensures KeyFileName(ClientKeyCert) == ClientKeyPem
  {
  }

  lemma ServerCertPemNamed()
    ensures CertFileName(Pem, "server") == ServerCertPem
  {
  }

  lemma ClientCertPemNamed()
    ensures CertFileName(Pem, "client") == ClientCertPem
  {
  }

  lemma ServerCertRootCaPemNamed()
    ensures CertFileName(PemRootCa, "server") == ServerCertRootCaPem
  {
  }

  lemma ClientCertRootCaPemNamed()
    ensures CertFileName(PemRootCa, "client") == ClientCertRootCaPem
  {
  }

  lemma ServerCertIntCaPemNamed()
    ensures CertFileName(PemCa, "server") == ServerCertIntCaPem
  {
  }

  lemma ServerCertCaChainPemNamed()
    ensures CertFileName(PemCaChain, "server") == ServerCertCaChainPem
  {
  }

  lemma RootCaCertPemNamed()
    ensures TrustFileName(PemRootCa, ServerTrust) == RootCaCertPem
  {
  }

  lemma IntCaCertPemNamed()
    ensures TrustFileName(PemCa, ServerTrust) == IntCaCertPem
  {
  }

  /** Every store descriptor names the store of its own side, role, authority and format. */
  lemma StoreFilesByRole(id: ScenarioId, a: Accessor)
    requires Lookup(id, a).Present? && IsStore(Lookup(id, a).bundle.kind)
    ensures StorePath(Lookup(id, a).bundle) == StoreFileName(id, a, Lookup(id, a).bundle.kind)
  {
    match id
    case Jks =>
      ServerKeystoreJksNamed(); ServerTruststoreJksNamed();
      ClientTruststoreJksNamed(); ClientKeystoreJksNamed();
    case Pkcs12 =>
      ServerKeystoreP12Named(); ServerTruststoreP12Named();
      ClientTruststoreP12Named(); ClientKeystoreP12Named();
    case JksRootCa => ServerKeystoreRootCaJksNamed(); ClientTruststoreRootCaJksNamed();
    case Pkcs12RootCa => ServerKeystoreRootCaP12Named(); ClientTruststoreRootCaP12Named();
    case Mim => MimServerKeystoreJksNamed();
    case _ =>
  }

  /** Every PEM key pair is the key and the certificate of its own side, signed by the scenario's authority. */
  lemma PemKeyPairsByRole(id: ScenarioId, a: Accessor)
    requires Lookup(id, a).Present? && Lookup(id, a).bundle.kind == PemKeyCert
    ensures KeyPath(Lookup(id, a).bundle) == KeyFileName(a)
    ensures CertPath(Lookup(id, a).bundle) == CertFileName(id, SideName(a))
  {
    ServerKeyPemNamed();
    ClientKeyPemNamed();
    match id
    case Pem => ServerCertPemNamed(); ClientCertPemNamed();
    case PemRootCa => ServerCertRootCaPemNamed(); ClientCertRootCaPemNamed();
    case PemCa => ServerCertIntCaPemNamed();
    case PemCaChain => ServerCertCaChainPemNamed();
    case _ =>
  }

  /** Every PEM trust descriptor names exactly the anchor its scenario calls for. */
  lemma PemTrustByRole(id: ScenarioId, a: Accessor)
    requires Lookup(id, a).Present? && Lookup(id, a).bundle.kind == PemTrust
    ensures TrustPaths(Lookup(id, a).bundle) == [TrustFileName(id, a)]
  {
    match id
    case Pem => ServerCertPemNamed(); ClientCertPemNamed();
    case _ => RootCaCertPemNamed(); IntCaCertPemNamed();
  }
}
