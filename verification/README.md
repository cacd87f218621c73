# TLS test-scenario catalog

A Dafny model of `TLSCert`, the enum the Vert.x test suite uses to pick a TLS
setup for a client/server pair. Each of its ten constants (`NONE`, `JKS`,
`PKCS12`, `PEM`, `JKS_ROOT_CA`, `PKCS12_ROOT_CA`, `PEM_ROOT_CA`, `PEM_CA`,
`PEM_CA_CHAIN`, `MIM`) answers four questions:

- what key and certificate the server presents;
- what the server trusts;
- what the client trusts;
- what key and certificate the client presents.

Each answer is a credential descriptor, `null` ("this scenario needs none"),
or an exception ("asking is a mistake in the test").

## Layout

- `wrappers.dfy`: module `Wrappers`, the `Option` type that stands for Java's nullable references.
- `credentials.dfy`: module `Credentials`, the descriptors.
  - The four Vert.x option classes (`JksOptions`, `PfxOptions`, `PemKeyCertOptions`, `PemTrustOptions`) become one record, `CredentialBundle`, holding a kind, an ordered list of paths and an optional password.
  - `WellFormed` is the shape of every descriptor the catalog builds.
  - There is one builder and a set of field getters per option class.
- `fixtures.dfy`: module `Fixtures`, the password `"wibble"`, the `tls/` root and the 23 fixture files the catalog names. Each file is a named constant whose text is the literal from the source. There are also lemmas that each file lies under `tls/` and has the extension of its format.
- `tls_cert.dfy`: module `TlsCert`, the catalog itself.
  - `ScenarioId` lists the constants in declaration order. `NONE` becomes `NoTls`, because `None` already names the empty `Option`.
  - `Accessor` lists the four abstract methods.
  - `AccessorResult` is `Present(bundle)`, `NotApplicable` (the method returns `null`) or `Unsupported` (the method throws).
  - `Resolve` is the table. `Lookup(id, a)` is the call `id.getXxxOptions()`.
  - `ToCall` and `FromCall` translate between the tagged result and what a Java caller sees: a returned reference, possibly `null`, or a throw. `ToCall` maps `Unsupported` to a throw, as the Java method does.
  - `Values`, `Ordinal`, `Name` and `ValueOf` model what Java derives from the declared constants: `values()`, `ordinal()`, `name()` and `valueOf(String)`.
- `tls_cert_properties.dfy`: module `TlsCertProperties`, lemmas over every constant and accessor.
- `tls_cert_roles.dfy`: module `TlsCertRoles`, which file each role gets. Store and key/cert file names are made of side (`server`/`client`), role (`keystore`/`truststore`, `key`/`cert`), signing authority (`-root-ca`, `-int-ca`, `-ca-chain`) and extension, with a `mim-` prefix on the `MIM` keystore. The CA certificates are `ca-cert.pem` in their own directory, `root-ca/` or `int-ca/`. Lemmas compose the expected name of every descriptor's files from those parts, independently of `Resolve`, and show the catalog names exactly those files.

The source throws two different exception classes for the same condition:
`UnsupportedOperationException` in `JKS_ROOT_CA` and `PKCS12_ROOT_CA`, and
Netty's `UnsupportedMessageTypeException` in `PEM_CA` and `PEM_CA_CHAIN`.
Nothing in this enum distinguishes them, and the second is a codec exception with no
bearing on certificates, so the mix is most likely an oversight. Both map to
the single `Unsupported` tag. The comment on `AccessorResult` in
`tls_cert.dfy` records this.

## Model

| member | source | states |
|---|---|---|
| Credentials.JksOptions | src/test/java/io/vertx/test/core/TLSCert.java:54 | a `JksOptions` with a path and password set is a well-formed keystore descriptor whose getters give back exactly that path and password |
| Credentials.PfxOptions | src/test/java/io/vertx/test/core/TLSCert.java:74 | a `PfxOptions` with a path and password set is a well-formed PKCS#12 descriptor whose getters give back that path and password |
| Credentials.PemKeyCertOptions | src/test/java/io/vertx/test/core/TLSCert.java:94 | a `PemKeyCertOptions` with key and cert path set is a well-formed PEM key pair with exactly that key path and cert path |
| Credentials.PemTrustOptions | src/test/java/io/vertx/test/core/TLSCert.java:98 | a `PemTrustOptions` after one or more `addCertPath` calls is a well-formed trust descriptor listing exactly those paths in order |
| Credentials.RebuildIdentity | src/test/java/io/vertx/test/core/TLSCert.java:54-106 | every well-formed descriptor is what its own builder produces from its getters, so the builders and getters are mutually inverse |
| TlsCert.Resolve | src/test/java/io/vertx/test/core/TLSCert.java:31-228 | the catalog: every descriptor it hands out is well formed and every constant but `NONE` sets a server key/cert; its full content (the outcome of each accessor, each descriptor's format and password, and the exact file each role names) is fixed by MatchesScenarioTable, FormatFollowsFamily, PasswordIffStore and the three TlsCertRoles lemmas below |
| TlsCert.Lookup | src/test/java/io/vertx/test/core/TLSCert.java:231-234 | one accessor call returns a well-formed descriptor of the role its declared return type names (`KeyCertOptions` or `TrustOptions`) |
| TlsCert.Call | src/test/java/io/vertx/test/core/TLSCert.java:231-234 | an accessor throws only in `JKS_ROOT_CA`, `PKCS12_ROOT_CA`, `PEM_CA` and `PEM_CA_CHAIN`, returns `null` only in `NONE` and `MIM`, and any non-null reference is a well-formed descriptor |
| TlsCert.Values | src/test/java/io/vertx/test/core/TLSCert.java:29-228 | `values()` has the ten declared constants with none repeated |
| TlsCert.Name | src/test/java/io/vertx/test/core/TLSCert.java:29-228 | `name()` is a Java constant identifier: it starts with a capital letter and holds only capitals, digits and underscores |
| TlsCert.ToCall | src/test/java/io/vertx/test/core/TLSCert.java:111-128 | a Java caller gets a reference exactly when the accessor does not refuse, gets `null` exactly when the answer is "not applicable", and otherwise gets the descriptor itself |
| TlsCert.FromCall | src/test/java/io/vertx/test/core/TLSCert.java:111-128 | reading a Java call back gives `Unsupported` exactly when the call threw |
| TlsCert.Ordinal | src/test/java/io/vertx/test/core/TLSCert.java:29-228 | each constant's ordinal is a position in `values()`, and `values()` holds that constant at that position |
| TlsCert.ValueOf | src/test/java/io/vertx/test/core/TLSCert.java:29-228 | `valueOf(name)` yields a constant exactly when that constant is declared with that name; otherwise there is no result, where Java throws |
| TlsCert.NamesDistinct | src/test/java/io/vertx/test/core/TLSCert.java:29-228 | no two constants are declared with the same name |
| TlsCertProperties.MatchesScenarioTable | src/test/java/io/vertx/test/core/TLSCert.java:29-228 | every accessor of every constant has the present / null / refused outcome of a ten-row outcome table written independently of `Resolve` |
| TlsCertProperties.NotApplicableExactly | src/test/java/io/vertx/test/core/TLSCert.java:31-227 | an accessor returns `null` if and only if the constant is `NONE`, or it is `MIM` and the accessor is not the server key/cert |
| TlsCertProperties.UnsupportedExactly | src/test/java/io/vertx/test/core/TLSCert.java:111-208 | an accessor refuses if and only if it is the server trust or client key/cert of a root-CA keystore scenario, or the client key/cert of `PEM_CA` or `PEM_CA_CHAIN` |
| TlsCertProperties.FullyConfiguredExactly | src/test/java/io/vertx/test/core/TLSCert.java:51-168 | all four accessors answer with a descriptor if and only if the constant is `JKS`, `PKCS12`, `PEM` or `PEM_ROOT_CA` |
| TlsCertProperties.RefusalIsNeverNull | src/test/java/io/vertx/test/core/TLSCert.java:111-208 | a refused accessor throws and never returns `null`, and an accessor returns `null` exactly when the scenario needs no such material |
| TlsCertProperties.CallRoundTrip | src/test/java/io/vertx/test/core/TLSCert.java:231-234 | the tagged result is recovered unchanged from what the Java caller sees, so "refused" and "not applicable" are never merged |
| TlsCertProperties.CallReadBack | src/test/java/io/vertx/test/core/TLSCert.java:231-234 | every Java call outcome is the image of exactly one tagged result |
| TlsCertProperties.FormatFollowsFamily | src/test/java/io/vertx/test/core/TLSCert.java:51-228 | JKS scenarios and `MIM` hand out keystore descriptors, PKCS12 scenarios PKCS#12 descriptors, and PEM scenarios PEM key pairs from key/cert accessors and PEM trust from trust accessors; `NONE` hands out none |
| TlsCertProperties.RoleMatchesKind | src/test/java/io/vertx/test/core/TLSCert.java:231-234 | a key/cert accessor never returns a PEM trust descriptor, and a trust accessor never returns a PEM key pair |
| TlsCertProperties.DescriptorsWellFormed | src/test/java/io/vertx/test/core/TLSCert.java:54-214 | every descriptor in the catalog has the shape the catalog's builder chains give it: one store path and a password, a key and a cert path, or a non-empty trust list |
| TlsCertProperties.PasswordIffStore | src/test/java/io/vertx/test/core/TLSCert.java:54-214 | a descriptor carries a password exactly when it is a keystore or PKCS#12 descriptor, and that password is always `"wibble"` |
| TlsCertProperties.PemPathArity | src/test/java/io/vertx/test/core/TLSCert.java:94-202 | every PEM key pair names one key and one certificate, and every PEM trust descriptor names exactly one certificate |
| TlsCertProperties.ServerKeyIsShared | src/test/java/io/vertx/test/core/TLSCert.java:94-194 | every PEM server key pair uses the key `tls/server-key.pem` |
| TlsCertProperties.PathsUnderFixtureRoot | src/test/java/io/vertx/test/core/TLSCert.java:54-214 | every path in every descriptor starts with `tls/` and ends in the extension of its format (`.jks`, `.p12`, `.pem`) |
| TlsCertProperties.SelfSignedStorePaths | src/test/java/io/vertx/test/core/TLSCert.java:51-88 | the `JKS` and `PKCS12` rows only name fixture files of their own format |
| TlsCertProperties.OtherStorePaths | src/test/java/io/vertx/test/core/TLSCert.java:111-228 | the root-CA keystore rows and `MIM` only name fixture files of their own format |
| TlsCertProperties.SelfSignedPemPaths | src/test/java/io/vertx/test/core/TLSCert.java:91-108 | the `PEM` row only names `.pem` fixture files |
| TlsCertProperties.RootCaPemPaths | src/test/java/io/vertx/test/core/TLSCert.java:151-168 | the `PEM_ROOT_CA` row only names `.pem` fixture files |
| TlsCertProperties.IntCaPemPaths | src/test/java/io/vertx/test/core/TLSCert.java:171-208 | the `PEM_CA` and `PEM_CA_CHAIN` rows only name `.pem` fixture files |
| Fixtures.SelfSignedJksFiles | src/test/java/io/vertx/test/core/TLSCert.java:54-66 | the four self-signed keystore files lie under `tls/` and end in `.jks` |
| Fixtures.SelfSignedP12Files | src/test/java/io/vertx/test/core/TLSCert.java:74-86 | the four self-signed PKCS#12 files lie under `tls/` and end in `.p12` |
| Fixtures.OtherStoreFiles | src/test/java/io/vertx/test/core/TLSCert.java:114-214 | the root-CA keystore files and the `MIM` keystore lie under `tls/` with the extension of their format |
| Fixtures.PemKeyFiles | src/test/java/io/vertx/test/core/TLSCert.java:94-194 | the server and client PEM keys lie under `tls/` and end in `.pem` |
| Fixtures.SelfSignedPemFiles | src/test/java/io/vertx/test/core/TLSCert.java:94-106 | the self-signed PEM certificates lie under `tls/` and end in `.pem` |
| Fixtures.RootCaPemFiles | src/test/java/io/vertx/test/core/TLSCert.java:154-166 | the root-CA-signed PEM certificates and the root CA certificate lie under `tls/` and end in `.pem` |
| Fixtures.IntCaPemFiles | src/test/java/io/vertx/test/core/TLSCert.java:174-202 | the intermediate-CA PEM certificates, the chain file and both CA certificates lie under `tls/` and end in `.pem` |
| TlsCertProperties.SelfSignedPemTrustIsCrosswise | src/test/java/io/vertx/test/core/TLSCert.java:91-108 | in `PEM` the server trusts exactly the client's certificate, the client trusts exactly the server's certificate, and the two trust descriptors differ |
| TlsCertProperties.SharedTrustExactly | src/test/java/io/vertx/test/core/TLSCert.java:151-208 | server and client trust the same CA descriptor if and only if the constant is `PEM_ROOT_CA`, `PEM_CA` or `PEM_CA_CHAIN` |
| TlsCertProperties.ChainTrustsRoot | src/test/java/io/vertx/test/core/TLSCert.java:151-208 | `PEM_CA_CHAIN` trusts the root CA (`tls/root-ca/ca-cert.pem`), as `PEM_ROOT_CA` does, and not the intermediate CA that `PEM_CA` trusts |
| TlsCertRoles.StoreFilesByRole | src/test/java/io/vertx/test/core/TLSCert.java:51-228 | every keystore or PKCS#12 descriptor names the store of its own side and role (`server-keystore`, `server-truststore`, `client-truststore`, `client-keystore`), with `-root-ca` in the root-CA scenarios, `mim-` in `MIM` and its format's extension |
| TlsCertRoles.PemKeyPairsByRole | src/test/java/io/vertx/test/core/TLSCert.java:91-208 | every PEM key pair names its own side's key (`tls/server-key.pem` or `tls/client-key.pem`) and its own side's certificate, marked with the scenario's signing authority (none, `-root-ca`, `-int-ca`, `-ca-chain`) |
| TlsCertRoles.PemTrustByRole | src/test/java/io/vertx/test/core/TLSCert.java:91-208 | in `PEM` each side trusts exactly the peer's self-signed certificate; in the CA scenarios both trust exactly `tls/int-ca/ca-cert.pem` (`PEM_CA`) or `tls/root-ca/ca-cert.pem` (`PEM_ROOT_CA`, `PEM_CA_CHAIN`) |
| TlsCertProperties.ValuesEnumerateAll | src/test/java/io/vertx/test/core/TLSCert.java:29-228 | `values()` has ten entries, each at its own ordinal, and contains every constant, so no constant is missing and none is repeated |

## Left out

- The internals of `JksOptions`, `PfxOptions`, `PemKeyCertOptions` and `PemTrustOptions` are left out. They are Vert.x library classes, so only the paths and password the catalog sets on them are modelled. The classes' other fields, such as in-memory buffers, are not.
- The two exception classes are not modelled separately. Both become `Unsupported`, for the reason given above.
- Whether the fixture files exist, keystore and PEM parsing, and certificate contents are left out. So are handshake outcomes: mutual authentication for `PEM_ROOT_CA`, the hostname mismatch for `MIM`, and plaintext for `NONE`. These depend on files, cryptography and the network outside this enum, and the enum's code does not express them.
- "Resolving the same constant twice gives equal results" has no lemma. `Resolve` is a Dafny function with no state, so the property holds by construction, and a lemma for it would be vacuous.
- "Every accessor is total and returns one of three outcomes" has no lemma either. `Lookup` is a total function into the three-constructor type `AccessorResult`, so the typing already guarantees it.
- Concurrency is left out. The enum is immutable and needs no synchronisation.
- `TlsCert.ValueOf` ignores Java's `NullPointerException` for a `null` name, because Dafny strings cannot be null.
