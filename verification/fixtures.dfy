/**
 The fixture files the scenario catalog refers to, and the password that
 protects the keystore-format ones. Every file lives under the `tls/`
 resource directory and carries the extension of its format.
 */
module Fixtures {
  import opened Credentials

  /** The single password every keystore and PKCS#12 fixture is protected with. */
  const FixturePassword: string := "wibble"

  /** Directory, relative to the test resources, that holds every fixture file. */
  const FixtureRoot: string := "tls/"

  // Self-signed Java keystores.
  const ServerKeystoreJks: Path := "tls/server-keystore.jks"
  const ServerTruststoreJks: Path := "tls/server-truststore.jks"
  const ClientTruststoreJks: Path := "tls/client-truststore.jks"
  const ClientKeystoreJks: Path := "tls/client-keystore.jks"

  // Self-signed PKCS#12 containers.
  const ServerKeystoreP12: Path := "tls/server-keystore.p12"
  const ServerTruststoreP12: Path := "tls/server-truststore.p12"
  const ClientTruststoreP12: Path := "tls/client-truststore.p12"
  const ClientKeystoreP12: Path := "tls/client-keystore.p12"

  // Keystores for certificates signed by the root CA.
  const ServerKeystoreRootCaJks: Path := "tls/server-keystore-root-ca.jks"
  const ClientTruststoreRootCaJks: Path := "tls/client-truststore-root-ca.jks"
  const ServerKeystoreRootCaP12: Path := "tls/server-keystore-root-ca.p12"
  const ClientTruststoreRootCaP12: Path := "tls/client-truststore-root-ca.p12"

  /** The keystore whose certificate names a host other than the one connected to. */
  const MimServerKeystoreJks: Path := "tls/mim-server-keystore.jks"

  // PEM private keys: the server key is used by every PEM scenario, the client
  // key by `PEM` and `PEM_ROOT_CA` only.
  const ServerKeyPem: Path := "tls/server-key.pem"
  const ClientKeyPem: Path := "tls/client-key.pem"

  // PEM certificates.
  const ServerCertPem: Path := "tls/server-cert.pem"
  const ClientCertPem: Path := "tls/client-cert.pem"
  const ServerCertRootCaPem: Path := "tls/server-cert-root-ca.pem"
  const ClientCertRootCaPem: Path := "tls/client-cert-root-ca.pem"
  const ServerCertIntCaPem: Path := "tls/server-cert-int-ca.pem"
  /** The server certificate of the intermediate-CA scenario that uses a chain. */
  const ServerCertCaChainPem: Path := "tls/server-cert-ca-chain.pem"

  // PEM CA certificates, used as trust anchors.
  const RootCaCertPem: Path := "tls/root-ca/ca-cert.pem"
  const IntCaCertPem: Path := "tls/int-ca/ca-cert.pem"

  predicate StartsWith(s: string, prefix: string) {
    |prefix| <= |s| && s[..|prefix|] == prefix
  }

  predicate EndsWith(s: string, suffix: string) {
    |suffix| <= |s| && s[|s| - |suffix|..] == suffix
  }

  /** A fixture file: under the fixture root, with the extension of its kind of material. */
  predicate FixturePath(p: Path, k: BundleKind) {
    StartsWith(p, FixtureRoot) && EndsWith(p, Extension(k))
  }

  // Every file named above is a fixture path of the format it is used in.
  // The facts are grouped a few files at a time to keep each proof small.

  lemma SelfSignedJksFiles()
    ensures FixturePath(ServerKeystoreJks, JksStore) && FixturePath(ServerTruststoreJks, JksStore)
    ensures FixturePath(ClientTruststoreJks, JksStore) && FixturePath(ClientKeystoreJks, JksStore)
  {
  }

  lemma SelfSignedP12Files()
    ensures FixturePath(ServerKeystoreP12, PfxStore) && FixturePath(ServerTruststoreP12, PfxStore)
    ensures FixturePath(ClientTruststoreP12, PfxStore) && FixturePath(ClientKeystoreP12, PfxStore)
  {
  }

  lemma OtherStoreFiles()
    ensures FixturePath(ServerKeystoreRootCaJks, JksStore) && FixturePath(ClientTruststoreRootCaJks, JksStore)
    ensures FixturePath(ServerKeystoreRootCaP12, PfxStore) && FixturePath(ClientTruststoreRootCaP12, PfxStore)
    ensures FixturePath(MimServerKeystoreJks, JksStore)
  {
  }

  lemma PemKeyFiles()
    ensures FixturePath(ServerKeyPem, PemKeyCert) && FixturePath(ClientKeyPem, PemKeyCert)
  {
  }

  lemma SelfSignedPemFiles()
    ensures FixturePath(ServerCertPem, PemKeyCert) && FixturePath(ClientCertPem, PemKeyCert)
    ensures FixturePath(ServerCertPem, PemTrust) && FixturePath(ClientCertPem, PemTrust)
  {
  }

  lemma RootCaPemFiles()
    ensures FixturePath(ServerCertRootCaPem, PemKeyCert) && FixturePath(ClientCertRootCaPem, PemKeyCert)
    ensures FixturePath(RootCaCertPem, PemTrust)
  {
  }

  lemma IntCaPemFiles()
    ensures FixturePath(ServerCertIntCaPem, PemKeyCert) && FixturePath(ServerCertCaChainPem, PemKeyCert)
    ensures FixturePath(RootCaCertPem, PemTrust) && FixturePath(IntCaCertPem, PemTrust)
  {
  }
}
