/**
 Facts about the scenario catalog, each stated for every scenario id and
 every accessor: which answers are absent and which are refused, the format,
 password and path shape of every descriptor, and how the trust anchors of
 the two sides relate.
 */
module TlsCertProperties {
  import opened Wrappers
  import opened Credentials
  import opened Fixtures
  import opened TlsCert

  // ---------------------------------------------------------------------------
  // Which accessors answer, which return null and which refuse.

  /** The three outcomes of an accessor call: a descriptor, `null`, a throw. */
  datatype Mark = P | N | U

  function MarkOf(r: AccessorResult): Mark {
    match r
    case Present(_) => P
    case NotApplicable => N
    case Unsupported => U
  }

  /**
   The expected outcome of each accessor, one row per constant (server
   key/cert, server trust, client trust, client key/cert), written out
   independently of `Resolve`.
   */
  function TableRow(id: ScenarioId): seq<Mark> {
    match id
    case NoTls => [N, N, N, N]
    case Jks | Pkcs12 | Pem | PemRootCa => [P, P, P, P]
    case JksRootCa | Pkcs12RootCa => [P, U, P, U]
    case PemCa | PemCaChain => [P, P, P, U]
    case Mim => [P, N, N, N]
  }

  function Column(a: Accessor): nat {
    match a
    case ServerKeyCert => 0
    case ServerTrust => 1
    case ClientTrust => 2
    case ClientKeyCert => 3
  }

  /** Every accessor of every constant has the outcome the table gives it. */
  lemma MatchesScenarioTable(id: ScenarioId, a: Accessor)
    ensures Column(a) < |TableRow(id)| && MarkOf(Lookup(id, a)) == TableRow(id)[Column(a)]
  {
  }

  /**
   An accessor returns null exactly in `NONE` (all four) and in `MIM` (all
   but the server key/cert).
   */
  lemma NotApplicableExactly(id: ScenarioId, a: Accessor)
    ensures Lookup(id, a).NotApplicable? <==> id == NoTls || (id == Mim && a != ServerKeyCert)
  {
  }

  /**
   An accessor refuses exactly in the two root-CA keystore scenarios (server
   trust and client key/cert) and the two intermediate-CA scenarios (client
   key/cert only).
   */
  lemma UnsupportedExactly(id: ScenarioId, a: Accessor)
    ensures Lookup(id, a).Unsupported? <==>
              || ((id == JksRootCa || id == Pkcs12RootCa) && (a == ServerTrust || a == ClientKeyCert))
              || ((id == PemCa || id == PemCaChain) && a == ClientKeyCert)
  {
  }

  /** The scenarios that configure both sides completely. */
  lemma FullyConfiguredExactly(id: ScenarioId)
    ensures (forall a: Accessor :: Lookup(id, a).Present?) <==>
              id == Jks || id == Pkcs12 || id == Pem || id == PemRootCa
  {
    match id
    case NoTls | Mim => assert !Lookup(id, ServerTrust).Present?;
    case JksRootCa | Pkcs12RootCa | PemCa | PemCaChain => assert !Lookup(id, ClientKeyCert).Present?;
    case Jks | Pkcs12 | Pem | PemRootCa =>
  }

  /** A refusal never reaches a Java caller as `null`, and `null` never as a throw. */
  lemma RefusalIsNeverNull(id: ScenarioId, a: Accessor)
    ensures Lookup(id, a).Unsupported? <==> Call(id, a).Threw?
    ensures Lookup(id, a).NotApplicable? <==> Call(id, a) == Returned(None)
  {
  }

  /** The Java view loses nothing: the tagged result is read back from it unchanged. */
  lemma CallRoundTrip(r: AccessorResult)
    ensures FromCall(ToCall(r)) == r
  {
  }

  lemma CallReadBack(o: CallOutcome)
    ensures ToCall(FromCall(o)) == o
  {
  }

  // ---------------------------------------------------------------------------
  // Formats and passwords.

  /** The credential family a constant's name announces; `MIM` uses a keystore. */
  datatype Family = NoFamily | JksFamily | Pkcs12Family | PemFamily

  function FamilyOf(id: ScenarioId): Family {
    match id
    case NoTls => NoFamily
    case Jks | JksRootCa | Mim => JksFamily
    case Pkcs12 | Pkcs12RootCa => Pkcs12Family
    case Pem | PemRootCa | PemCa | PemCaChain => PemFamily
  }

  /** Every descriptor has the format of its scenario's family and its accessor's role. */
  lemma FormatFollowsFamily(id: ScenarioId, a: Accessor)
    requires Lookup(id, a).Present?
    ensures var k := Lookup(id, a).bundle.kind;
      match FamilyOf(id)
      case NoFamily => false
      case JksFamily => k == JksStore
      case Pkcs12Family => k == PfxStore
      case PemFamily => k == (if a.IsKeyCert() then PemKeyCert else PemTrust)
  {
  }

  /** Key/cert accessors never hand out trust anchors, nor trust accessors a key pair. */
  lemma RoleMatchesKind(id: ScenarioId, a: Accessor)
    requires Lookup(id, a).Present?
    ensures a.IsKeyCert() ==> IsKeyCertKind(Lookup(id, a).bundle.kind)
    ensures !a.IsKeyCert() ==> IsTrustKind(Lookup(id, a).bundle.kind)
  {
  }

  /** Every descriptor the catalog builds has the shape `WellFormed` describes. */
  lemma DescriptorsWellFormed(id: ScenarioId, a: Accessor)
    requires Lookup(id, a).Present?
    ensures WellFormed(Lookup(id, a).bundle)
  {
  }

  /** A password is set exactly on keystore descriptors, and it is always the fixture password. */
  lemma PasswordIffStore(id: ScenarioId, a: Accessor)
    requires Lookup(id, a).Present?
    ensures var b := Lookup(id, a).bundle;
      && (b.password.Some? <==> IsStore(b.kind))
      && (b.password.Some? ==> b.password.value == FixturePassword)
  {
  }

  // ---------------------------------------------------------------------------
  // Paths.

  /** PEM key pairs name one key and one certificate; PEM trust names exactly one anchor. */
  lemma PemPathArity(id: ScenarioId, a: Accessor)
    requires Lookup(id, a).Present?
    ensures var b := Lookup(id, a).bundle;
      && (b.kind == PemKeyCert ==> |b.paths| == 2)
      && (b.kind == PemTrust ==> |b.paths| == 1)
  {
  }

  /** All PEM server scenarios share the one server private key. */
  lemma ServerKeyIsShared(id: ScenarioId)
    requires Lookup(id, ServerKeyCert).Present?
    requires Lookup(id, ServerKeyCert).bundle.kind == PemKeyCert
    ensures KeyPath(Lookup(id, ServerKeyCert).bundle) == ServerKeyPem
  {
  }

  /** Every path lies under the fixture root and carries its format's extension. */
  lemma PathsUnderFixtureRoot(id: ScenarioId, a: Accessor, p: Path)
    requires Lookup(id, a).Present?
    requires p in Lookup(id, a).bundle.paths
    ensures FixturePath(p, Lookup(id, a).bundle.kind)
  {
    match id
    case NoTls =>
    case Jks | Pkcs12 => SelfSignedStorePaths(id, a, p);
    case JksRootCa | Pkcs12RootCa | Mim => OtherStorePaths(id, a, p);
    case Pem => SelfSignedPemPaths(a, p);
    case PemRootCa => RootCaPemPaths(a, p);
    case PemCa | PemCaChain => IntCaPemPaths(id, a, p);
  }

  // `PathsUnderFixtureRoot` for one group of rows at a time.

  lemma SelfSignedStorePaths(id: ScenarioId, a: Accessor, p: Path)
    requires id == Jks || id == Pkcs12
    requires Lookup(id, a).Present? && p in Lookup(id, a).bundle.paths
    ensures FixturePath(p, Lookup(id, a).bundle.kind)
  {
    SelfSignedJksFiles();
    SelfSignedP12Files();
  }

  lemma OtherStorePaths(id: ScenarioId, a: Accessor, p: Path)
    requires id == JksRootCa || id == Pkcs12RootCa || id == Mim
    requires Lookup(id, a).Present? && p in Lookup(id, a).bundle.paths
    ensures FixturePath(p, Lookup(id, a).bundle.kind)
  {
    OtherStoreFiles();
  }

  lemma SelfSignedPemPaths(a: Accessor, p: Path)
    requires Lookup(Pem, a).Present? && p in Lookup(Pem, a).bundle.paths
    ensures FixturePath(p, Lookup(Pem, a).bundle.kind)
  {
    PemKeyFiles();
    SelfSignedPemFiles();
    match a
    case ServerKeyCert => assert p == ServerKeyPem || p == ServerCertPem;
    case ServerTrust => assert p == ClientCertPem;
    case ClientTrust => assert p == ServerCertPem;
    case ClientKeyCert => assert p == ClientKeyPem || p == ClientCertPem;
  }

  lemma RootCaPemPaths(a: Accessor, p: Path)
    requires Lookup(PemRootCa, a).Present? && p in Lookup(PemRootCa, a).bundle.paths
    ensures FixturePath(p, Lookup(PemRootCa, a).bundle.kind)
  {
    PemKeyFiles();
    RootCaPemFiles();
    match a
    case ServerKeyCert => assert p == ServerKeyPem || p == ServerCertRootCaPem;
    case ServerTrust | ClientTrust => assert p == RootCaCertPem;
    case ClientKeyCert => assert p == ClientKeyPem || p == ClientCertRootCaPem;
  }

  lemma IntCaPemPaths(id: ScenarioId, a: Accessor, p: Path)
    requires id == PemCa || id == PemCaChain
    requires Lookup(id, a).Present? && p in Lookup(id, a).bundle.paths
    ensures FixturePath(p, Lookup(id, a).bundle.kind)
  {
    PemKeyFiles();
    IntCaPemFiles();
    match a
    case ServerKeyCert => assert p == ServerKeyPem || p == ServerCertIntCaPem || p == ServerCertCaChainPem;
    case ServerTrust | ClientTrust => assert p == IntCaCertPem || p == RootCaCertPem;
    case ClientKeyCert =>
  }

  // ---------------------------------------------------------------------------
  // Trust relationships.

  /**
   Self-signed PEM trust is crosswise: the server trusts exactly the client's
   certificate and the client exactly the server's.
   */
  lemma SelfSignedPemTrustIsCrosswise()
    ensures var s := Resolve(Pem);
      && TrustPaths(s.serverTrust.bundle) == [CertPath(s.clientKeyCert.bundle)]
      && TrustPaths(s.clientTrust.bundle) == [CertPath(s.serverKeyCert.bundle)]
      && s.serverTrust != s.clientTrust
  {
  }

  /** Both sides trust one and the same CA exactly in the three CA-signed PEM scenarios. */
  lemma SharedTrustExactly(id: ScenarioId)
    ensures (Lookup(id, ServerTrust).Present? && Lookup(id, ServerTrust) == Lookup(id, ClientTrust)) <==>
              id == PemRootCa || id == PemCa || id == PemCaChain
  {
  }

  /** The chain scenario anchors trust in the root CA, not in the intermediate. */
  lemma ChainTrustsRoot()
    ensures Lookup(PemCaChain, ServerTrust) == Lookup(PemRootCa, ServerTrust)
    ensures Lookup(PemCaChain, ServerTrust) != Lookup(PemCa, ServerTrust)
    ensures TrustPaths(Lookup(PemCaChain, ServerTrust).bundle) == [RootCaCertPem]
  {
  }

  // ---------------------------------------------------------------------------
  // The constants themselves.

  /** `values()` lists every constant exactly once, at its ordinal. */
  lemma ValuesEnumerateAll()
    ensures |Values()| == 10
    ensures forall i :: 0 <= i < |Values()| ==> Ordinal(Values()[i]) == i
    ensures forall id: ScenarioId :: id in Values()
  {
    forall id: ScenarioId
      ensures id in Values()
    {
      assert Values()[Ordinal(id)] == id;
    }
  }
}
