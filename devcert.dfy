/**
 * The start-up of the development TLS proxy (`main` in
 * typesnipe-ui/ssl-proxy.mjs): create the credential files under `.dev_cert`
 * unless the leaf certificate and key are already there, then configure two
 * proxies that present them.  Paths are relative to the script's directory.
 */
module DevCert {
  import opened Wrappers
  import Hex
  import opened Certificates

  /** A file's content; PEM encoding is injective, so a PEM file is modelled by what it encodes. */
  datatype FileContent = CertificatePem(cert: Certificate) | PrivateKeyPem(key: KeyId) | OtherText(text: string)

  const CertDir: string := ".dev_cert"
  const CaCertPath: string := ".dev_cert/ca.cert.pem"
  const CertPath: string := ".dev_cert/cert.pem"
  const KeyPath: string := ".dev_cert/key.pem"

  /** The part of the machine the start-up touches: files, directories and the key-pair generator. */
  datatype Env = Env(files: map<string, FileContent>, dirs: set<string>, nextKeyPair: KeyId)

  /** The existence check: regenerate unless both `cert.pem` and `key.pem` exist (`ca.cert.pem` is not consulted). */
  predicate NeedsCredentials(files: map<string, FileContent>)
  {
    !(CertPath in files && KeyPath in files)
  }

  /** The key pairs a file mentions. */
  function KeysIn(c: FileContent): set<KeyId>
  {
    match c
    case CertificatePem(cert) => {cert.publicKey, cert.signedWith}
    case PrivateKeyPem(k) => {k}
    case OtherText(_) => {}
  }

  /** The generator has not yet handed out any key pair a file on disk mentions. */
  predicate KeysFresh(e: Env)
  {
    forall p, k :: p in e.files && k in KeysIn(e.files[p]) ==> k < e.nextKeyPair
  }

  /** The credential bundle start-up persists, from the next two key pairs and the two serials' random bytes. */
  function Credentials(e: Env, caRandom: Hex.Bytes32, leafRandom: Hex.Bytes32): (Issued, Issued)
  {
    var authority := CreateCertificateAuthority(e.nextKeyPair, caRandom);
    (authority, CreateTlsCertificate(authority.cert, authority.key, e.nextKeyPair + 1, leafRandom))
  }

  /** The bootstrap branch of `main`. */
  function EnsureCredentials(e: Env, caRandom: Hex.Bytes32, leafRandom: Hex.Bytes32): Env
  {
    if !NeedsCredentials(e.files) then e
    else
      var (authority, leaf) := Credentials(e, caRandom, leafRandom);
      Env(e.files[CaCertPath := CertificatePem(authority.cert)]
                 [CertPath := CertificatePem(leaf.cert)]
                 [KeyPath := PrivateKeyPem(leaf.key)],
          e.dirs + {CertDir},
          e.nextKeyPair + 2)
  }

  /** Start-up changes nothing exactly when both the leaf certificate and its key are already on disk. */
  lemma NothingChangesIffPresent(e: Env, caRandom: Hex.Bytes32, leafRandom: Hex.Bytes32)
    ensures EnsureCredentials(e, caRandom, leafRandom) == e <==> !NeedsCredentials(e.files)
  {
  }

  /** Afterwards both files the proxies read exist, so their `readFileSync` calls succeed. */
  lemma CredentialsPresent(e: Env, caRandom: Hex.Bytes32, leafRandom: Hex.Bytes32)
    ensures !NeedsCredentials(EnsureCredentials(e, caRandom, leafRandom).files)
  {
  }

  /** Running start-up twice leaves what the first run left, whatever randomness the second run draws. */
  lemma EnsureIdempotent(e: Env, a1: Hex.Bytes32, b1: Hex.Bytes32, a2: Hex.Bytes32, b2: Hex.Bytes32)
    ensures var once := EnsureCredentials(e, a1, b1);
      EnsureCredentials(once, a2, b2) == once
  {
  }

  /**
   * Regeneration writes exactly three files: the authority certificate, the leaf
   * certificate and the leaf private key, which together form a valid chain
   * with a matching key; every other file is left alone.
   */
  lemma RegenerationWritesBundle(e: Env, caRandom: Hex.Bytes32, leafRandom: Hex.Bytes32)
    requires NeedsCredentials(e.files)
    ensures var r := EnsureCredentials(e, caRandom, leafRandom);
      && r.files.Keys == e.files.Keys + {CaCertPath, CertPath, KeyPath}
      && (forall p :: p in e.files && p != CaCertPath && p != CertPath && p != KeyPath ==> r.files[p] == e.files[p])
      && r.files[CaCertPath].CertificatePem? && r.files[CertPath].CertificatePem? && r.files[KeyPath].PrivateKeyPem?
      && ValidChain(r.files[CaCertPath].cert, r.files[CertPath].cert)
      && r.files[KeyPath].key == r.files[CertPath].cert.publicKey
      && CertDir in r.dirs
  {
  }

  /**
   * The authority's private key is never persisted: after start-up no file
   * holds it, provided the generator's next pair was new to the disk.
   */
  lemma AuthorityKeyNotPersisted(e: Env, caRandom: Hex.Bytes32, leafRandom: Hex.Bytes32)
    requires KeysFresh(e) && NeedsCredentials(e.files)
    ensures var r := EnsureCredentials(e, caRandom, leafRandom);
      forall p :: p in r.files ==> r.files[p] != PrivateKeyPem(Credentials(e, caRandom, leafRandom).0.key)
  {
    var r := EnsureCredentials(e, caRandom, leafRandom);
    var caKey := Credentials(e, caRandom, leafRandom).0.key;
    forall p | p in r.files
      ensures r.files[p] != PrivateKeyPem(caKey)
    {
      if p in e.files && p != CaCertPath && p != CertPath && p != KeyPath {
        assert r.files[p] == e.files[p];
        assert caKey !in KeysIn(e.files[p]);
      }
    }
  }

  /** Start-up keeps the generator ahead of every key on disk. */
  lemma EnsureKeepsKeysFresh(e: Env, caRandom: Hex.Bytes32, leafRandom: Hex.Bytes32)
    requires KeysFresh(e)
    ensures KeysFresh(EnsureCredentials(e, caRandom, leafRandom))
  {
  }

  /** One of the two proxy instances: where it listens, where it forwards, and the TLS files it presents. */
  datatype ProxyRoute = ProxyRoute(
    listenHost: string, listenPort: int,
    targetHost: string, targetPort: int,
    sslKey: FileContent, sslCert: FileContent,
    ws: bool)

  /** The two proxies `main` configures, both presenting the same key and certificate. */
  function ProxyRoutes(key: FileContent, cert: FileContent): seq<ProxyRoute>
  {
    [ ProxyRoute("0.0.0.0", 3001, "localhost", 3000, key, cert, true),
      ProxyRoute("0.0.0.0", 8001, "127.0.0.1", 8000, key, cert, true) ]
  }

  /** The proxy that accepts connections on `port`, if any. */
  function RouteFor(routes: seq<ProxyRoute>, port: int): Option<ProxyRoute>
    decreases |routes|
  {
    if routes == [] then None
    else if routes[0].listenPort == port then Some(routes[0])
    else RouteFor(routes[1..], port)
  }

  /** Port 3001 reaches only localhost:3000 and port 8001 only 127.0.0.1:8000; both over TLS with the same files. */
  lemma RoutingTable(key: FileContent, cert: FileContent, port: int)
    ensures var r := RouteFor(ProxyRoutes(key, cert), port);
      && (r.Some? <==> port == 3001 || port == 8001)
      && (port == 3001 ==> r.value.targetHost == "localhost" && r.value.targetPort == 3000)
      && (port == 8001 ==> r.value.targetHost == "127.0.0.1" && r.value.targetPort == 8000)
      && (r.Some? ==> r.value.sslKey == key && r.value.sslCert == cert && r.value.ws && r.value.listenHost == "0.0.0.0")
  {
    var routes := ProxyRoutes(key, cert);
    assert routes[1..][1..] == [];
    assert RouteFor(routes[1..], port) == if port == 8001 then Some(routes[1]) else None;
  }

  /** The proxy process at start-up. */
  class DevServer {
    var files: map<string, FileContent>
    var dirs: set<string>
    var nextKeyPair: KeyId

    constructor (files: map<string, FileContent>, dirs: set<string>, nextKeyPair: KeyId)
      ensures this.files == files && this.dirs == dirs && this.nextKeyPair == nextKeyPair
    {
      this.files := files;
      this.dirs := dirs;
      this.nextKeyPair := nextKeyPair;
    }

    function State(): Env
      reads this
    {
      Env(files, dirs, nextKeyPair)
    }

    /** `rsa.generateKeyPair`: a pair no earlier call returned. */
    method GenerateKeyPair() returns (pair: KeyId)
      modifies this`nextKeyPair
      ensures pair == old(nextKeyPair) && nextKeyPair == pair + 1
    {
      pair := nextKeyPair;
      nextKeyPair := nextKeyPair + 1;
    }

    /** `mkdirSync`: raises when the directory already exists. */
    method MakeDirectory(path: string) returns (r: Outcome<string>)
      modifies this`dirs
      ensures dirs == old(dirs) + {path}
      ensures r.Fail? <==> path in old(dirs)
    {
      if path in dirs {
        r := Fail("EEXIST");
      } else {
        dirs := dirs + {path};
        r := Pass;
      }
    }

    /** `main`: bootstrap the credentials if needed, then configure the two proxies from the files on disk. */
    method Start(caRandom: Hex.Bytes32, leafRandom: Hex.Bytes32) returns (routes: seq<ProxyRoute>)
      modifies this
      ensures State() == EnsureCredentials(old(State()), caRandom, leafRandom)
      ensures CertPath in files && KeyPath in files
      ensures routes == ProxyRoutes(files[KeyPath], files[CertPath])
    {
      if !(CertPath in files && KeyPath in files) {
        var caPair := GenerateKeyPair();
        var authority := CreateCertificateAuthority(caPair, caRandom);
        var leafPair := GenerateKeyPair();
        var certificate := CreateTlsCertificate(authority.cert, authority.key, leafPair, leafRandom);
        var _ := MakeDirectory(CertDir);  // a failure here is swallowed
        files := files[CaCertPath := CertificatePem(authority.cert)];
        files := files[CertPath := CertificatePem(certificate.cert)];
        files := files[KeyPath := PrivateKeyPem(certificate.key)];
      }
      var key := files[KeyPath];
      var cert := files[CertPath];
      routes := ProxyRoutes(key, cert);
    }
  }
}
