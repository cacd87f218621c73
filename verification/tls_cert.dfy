/**
 The TLS test-scenario catalog: a closed set of ten scenarios, each answering
 four questions — what the server presents, what the server trusts, what the
 client trusts and what the client presents.

 The Java enum gives every constant four overriding accessor methods; here the
 same content is one table, `Resolve`, from a scenario id to a `Scenario`
 record, and `Lookup` selects one of its four answers.
 */
module TlsCert {
  import opened Wrappers
  import opened Credentials
  import opened Fixtures

  /** The enum constants, in declaration order. `NoTls` is the Java constant `NONE`. */
  datatype ScenarioId =
    | NoTls
    | Jks           // self signed, Java keystores
    | Pkcs12        // self signed, PKCS#12 containers
    | Pem           // self signed, PEM files
    | JksRootCa     // signed by a root CA, Java keystores
    | Pkcs12RootCa  // signed by a root CA, PKCS#12 containers
    | PemRootCa     // signed by a root CA, PEM files
    | PemCa         // signed by an intermediate CA
    | PemCaChain    // signed by an intermediate CA, server sends the chain
    | Mim           // man in the middle: the server cert CN does not match the host

  /** The four abstract accessors every constant overrides. */
  datatype Accessor = ServerKeyCert | ServerTrust | ClientTrust | ClientKeyCert {
    /** The accessor is declared to return `KeyCertOptions` (otherwise `TrustOptions`). */
    predicate IsKeyCert() {
      this == ServerKeyCert || this == ClientKeyCert
    }
  }

  /**
   What one accessor call yields: a descriptor (`Present`), `null`
   (`NotApplicable`: the scenario needs no such material), or an exception
   (`Unsupported`: asking is a mistake in the calling test).

   The Java code throws two different exception classes for `Unsupported`:
   `UnsupportedOperationException` in the two root-CA keystore scenarios and
   Netty's `UnsupportedMessageTypeException` in the two intermediate-CA ones.
   Nothing in this enum distinguishes them, and the second is a codec exception with no
   bearing on certificates, so this is most likely an oversight; both are the
   single tag here.
   */
  datatype AccessorResult = Present(bundle: CredentialBundle) | NotApplicable | Unsupported

  datatype Scenario = Scenario(
    id: ScenarioId,
    serverKeyCert: AccessorResult,
    serverTrust: AccessorResult,
    clientTrust: AccessorResult,
    clientKeyCert: AccessorResult)
  {
    function Get(a: Accessor): AccessorResult {
      match a
      case ServerKeyCert => serverKeyCert
      case ServerTrust => serverTrust
      case ClientTrust => clientTrust
      case ClientKeyCert => clientKeyCert
    }
  }

  function JksFile(path: Path): AccessorResult {
    Present(JksOptions(path, FixturePassword))
  }

  function PfxFile(path: Path): AccessorResult {
    Present(PfxOptions(path, FixturePassword))
  }

  function PemPair(keyPath: Path, certPath: Path): AccessorResult {
    Present(PemKeyCertOptions(keyPath, certPath))
  }

  function PemAnchor(certPath: Path): AccessorResult {
    Present(PemTrustOptions([certPath]))
  }

  /**
   The catalog: the four accessor answers of every scenario. Every descriptor
   it hands out is well formed, and every scenario but `NONE` gives the server
   a key and certificate.
   */
  function Resolve(id: ScenarioId): (s: Scenario)
    ensures s.id == id
    ensures forall a: Accessor :: s.Get(a).Present? ==> WellFormed(s.Get(a).bundle)
    ensures s.serverKeyCert.Present? <==> id != NoTls
  {
    match id
    case NoTls =>
      Scenario(id, NotApplicable, NotApplicable, NotApplicable, NotApplicable)
    case Jks =>
      Scenario(id,
               JksFile(ServerKeystoreJks),
               JksFile(ServerTruststoreJks),
               JksFile(ClientTruststoreJks),
               JksFile(ClientKeystoreJks))
    case Pkcs12 =>
      Scenario(id,
               PfxFile(ServerKeystoreP12),
               PfxFile(ServerTruststoreP12),
               PfxFile(ClientTruststoreP12),
               PfxFile(ClientKeystoreP12))
    case Pem =>
      Scenario(id,
               PemPair(ServerKeyPem, ServerCertPem),
               PemAnchor(ClientCertPem),
               PemAnchor(ServerCertPem),
               PemPair(ClientKeyPem, ClientCertPem))
    case JksRootCa =>
      Scenario(id,
               JksFile(ServerKeystoreRootCaJks),
               Unsupported,
               JksFile(ClientTruststoreRootCaJks),
               Unsupported)
    case Pkcs12RootCa =>
      Scenario(id,
               PfxFile(ServerKeystoreRootCaP12),
               Unsupported,
               PfxFile(ClientTruststoreRootCaP12),
               Unsupported)
    case PemRootCa =>
      Scenario(id,
               PemPair(ServerKeyPem, ServerCertRootCaPem),
               PemAnchor(RootCaCertPem),
               PemAnchor(RootCaCertPem),
               PemPair(ClientKeyPem, ClientCertRootCaPem))
    case PemCa =>
      Scenario(id,
               PemPair(ServerKeyPem, ServerCertIntCaPem),
               PemAnchor(IntCaCertPem),
               PemAnchor(IntCaCertPem),
               Unsupported)
    case PemCaChain =>
      Scenario(id,
               PemPair(ServerKeyPem, ServerCertCaChainPem),
               PemAnchor(RootCaCertPem),
               PemAnchor(RootCaCertPem),
               Unsupported)
    case Mim =>
      Scenario(id, JksFile(MimServerKeystoreJks), NotApplicable, NotApplicable, NotApplicable)
  }

  /**
   Calling accessor `a` on constant `id`. A descriptor has the role the
   accessor's declared return type promises: `KeyCertOptions` or `TrustOptions`.
   */
  function Lookup(id: ScenarioId, a: Accessor): (r: AccessorResult)
    ensures r.Present? ==> WellFormed(r.bundle)
    ensures r.Present? && a.IsKeyCert() ==> IsKeyCertKind(r.bundle.kind)
    ensures r.Present? && !a.IsKeyCert() ==> IsTrustKind(r.bundle.kind)
  {
    Resolve(id).Get(a)
  }

  // ---------------------------------------------------------------------------
  // The Java view of an accessor call: a possibly-null reference, or a throw.

  datatype CallOutcome = Returned(value: Option<CredentialBundle>) | Threw

  /** How the tagged result surfaces to a Java caller. */
  function ToCall(r: AccessorResult): (o: CallOutcome)
    ensures o.Returned? <==> !r.Unsupported?
    ensures o == Returned(None) <==> r.NotApplicable?
    ensures r.Present? ==> o == Returned(Some(r.bundle))
  {
    match r
    case Present(b) => Returned(Some(b))
    case NotApplicable => Returned(None)
    case Unsupported => Threw
  }

  /** Reads a Java call outcome back as a tagged result. */
  function FromCall(o: CallOutcome): (r: AccessorResult)
    ensures r.Unsupported? <==> o.Threw?
  {
    match o
    case Returned(None) => NotApplicable
    case Returned(Some(b)) => Present(b)
    case Threw => Unsupported
  }

  /**
   What the Java accessor `a` of constant `id` does when called. Only the
   root-CA keystore and intermediate-CA scenarios throw, only `NONE` and `MIM`
   return `null`, and a non-null reference is always a well-formed descriptor.
   */
  function Call(id: ScenarioId, a: Accessor): (o: CallOutcome)
    ensures o.Threw? ==> id in {JksRootCa, Pkcs12RootCa, PemCa, PemCaChain}
    ensures o == Returned(None) ==> id == NoTls || id == Mim
    ensures o.Returned? && o.value.Some? ==> WellFormed(o.value.value)
  {
    ToCall(Lookup(id, a))
  }

  // ---------------------------------------------------------------------------
  // What Java derives from the declared constants: `values()`, `ordinal()`,
  // `name()` and `valueOf(String)`.

  /** `values()`: every constant, in declaration order, none repeated. */
  function Values(): (v: seq<ScenarioId>)
    ensures |v| == 10
    ensures forall i, j :: 0 <= i < j < |v| ==> v[i] != v[j]
  {
    [NoTls, Jks, Pkcs12, Pem, JksRootCa, Pkcs12RootCa, PemRootCa, PemCa, PemCaChain, Mim]
  }

  /** Position of the constant in the declaration. */
  function Ordinal(id: ScenarioId): (n: nat)
    ensures n < |Values()| && Values()[n] == id
  {
    match id
    case NoTls => 0
    case Jks => 1
    case Pkcs12 => 2
    case Pem => 3
    case JksRootCa => 4
    case Pkcs12RootCa => 5
    case PemRootCa => 6
    case PemCa => 7
    case PemCaChain => 8
    case Mim => 9
  }

  /** `name()`: the constant's identifier as written in the declaration. */
  function Name(id: ScenarioId): (n: string)
    ensures |n| > 0 && 'A' <= n[0] <= 'Z'
    ensures forall i :: 0 <= i < |n| ==> 'A' <= n[i] <= 'Z' || '0' <= n[i] <= '9' || n[i] == '_'
  {
    match id
    case NoTls => "NONE"
    case Jks => "JKS"
    case Pkcs12 => "PKCS12"
    case Pem => "PEM"
    case JksRootCa => "JKS_ROOT_CA"
    case Pkcs12RootCa => "PKCS12_ROOT_CA"
    case PemRootCa => "PEM_ROOT_CA"
    case PemCa => "PEM_CA"
    case PemCaChain => "PEM_CA_CHAIN"
    case Mim => "MIM"
  }

  /**
   `TLSCert.valueOf(name)`: the constant whose name is `name`; `None` where
   Java throws `IllegalArgumentException`.
   */
  method ValueOf(name: string) returns (r: Option<ScenarioId>)
    ensures forall id: ScenarioId :: r == Some(id) <==> Name(id) == name
  {
    var values := Values();
    var i := 0;
    while i < |values|
      invariant 0 <= i <= |values|
      invariant forall j :: 0 <= j < i ==> Name(values[j]) != name
    {
      if Name(values[i]) == name {
        forall id: ScenarioId
          ensures Name(id) == name ==> id == values[i]
        {
          NamesDistinct(id, values[i]);
        }
        return Some(values[i]);
      }
      i := i + 1;
    }
    forall id: ScenarioId
      ensures Name(id) != name
    {
      assert values[Ordinal(id)] == id;
    }
    return None;
  }

  /** No two constants share a name. */
  lemma NamesDistinct(x: ScenarioId, y: ScenarioId)
    ensures Name(x) == Name(y) ==> x == y
  {
  }
}
