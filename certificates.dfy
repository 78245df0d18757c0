/**
 * The certificate descriptors the development TLS proxy builds
 * (`createCertificate`, `createCertificateAuthority` and
 * `createTlsCertificate` in typesnipe-ui/ssl-proxy.mjs).
 *
 * Key pairs are opaque identifiers handed out by a fresh-id generator; a
 * certificate records which pair's public key it embeds and which pair's
 * private key signed it, so "the signature verifies against the public key
 * of pair k" is `signedWith == k`.
 */
module Certificates {
  import opened Wrappers
  import Hex

  /** Identifies an RSA key pair; `k` names both its public and its private half. */
  type KeyId = nat

  /** One relative distinguished name entry, e.g. commonName = "localhost". */
  datatype Attribute = Attribute(name: string, value: string)

  /**
   * A subjectAltName entry as node-forge takes it: a numeric GeneralName tag
   * with a `value`, or with an `ip` that forge encodes as address bytes.
   */
  datatype GeneralName = ValueName(typeTag: int, value: string) | IpName(typeTag: int, ip: string)

  /** The GeneralName tags of section 4.2.1.6 of RFC 5280: dNSName [2] and iPAddress [7]. */
  const DnsNameTag: int := 2
  const IpAddressTag: int := 7

  /** The X.509 extension descriptors the source passes to `setExtensions`; flags it leaves out are false. */
  datatype Extension =
    | BasicConstraints(cA: bool, critical: bool)
    | KeyUsage(digitalSignature: bool, keyEncipherment: bool, keyCertSign: bool, critical: bool)
    | ExtKeyUsage(serverAuth: bool, clientAuth: bool)
    | SubjectAltName(altNames: seq<GeneralName>)

  /** The argument object of `createCertificate`; `signer` is its optional `key`. */
  datatype CertificateRequest = CertificateRequest(
    subject: seq<Attribute>,
    issuer: seq<Attribute>,
    extensions: seq<Extension>,
    duration: int,
    signer: Option<KeyId>)

  datatype Certificate = Certificate(
    serialNumber: string,
    subject: seq<Attribute>,
    issuer: seq<Attribute>,
    extensions: seq<Extension>,
    validityDays: int,
    publicKey: KeyId,
    signedWith: KeyId)

  /** What `createCertificate` returns: the private key of the fresh pair, and the certificate. */
  datatype Issued = Issued(key: KeyId, cert: Certificate)

  const ValidityDays: int := 365
  const DevIp: string := "192.168.8.211"

  predicate SelfSigned(c: Certificate)
  {
    c.signedWith == c.publicKey
  }

  /** `leaf` names `ca` as issuer and carries a signature that verifies against `ca`'s public key. */
  predicate IssuedBy(leaf: Certificate, ca: Certificate)
  {
    leaf.issuer == ca.subject && leaf.signedWith == ca.publicKey
  }

  predicate AssertsCA(c: Certificate)
  {
    exists i :: 0 <= i < |c.extensions| && c.extensions[i].BasicConstraints? && c.extensions[i].cA
  }

  predicate AssertsKeyCertSign(c: Certificate)
  {
    exists i :: 0 <= i < |c.extensions| && c.extensions[i].KeyUsage? && c.extensions[i].keyCertSign
  }

  /** Some subjectAltName extension of `c` lists `name`. */
  predicate HasAltName(c: Certificate, name: GeneralName)
  {
    exists i :: 0 <= i < |c.extensions| && c.extensions[i].SubjectAltName? && name in c.extensions[i].altNames
  }

  /** The chain the proxy's clients are asked to trust: a self-signed authority over a localhost leaf. */
  predicate ValidChain(ca: Certificate, leaf: Certificate)
  {
    && SelfSigned(ca) && AssertsCA(ca) && AssertsKeyCertSign(ca) && ca.subject == ca.issuer
    && IssuedBy(leaf, ca) && !AssertsCA(leaf)
    && HasAltName(leaf, ValueName(DnsNameTag, "localhost")) && HasAltName(leaf, IpName(IpAddressTag, DevIp))
  }

  /**
   * `createCertificate`: `keyPair` is the pair `rsa.generateKeyPair` produced and
   * `random` the bytes `randomBytes(32)` produced.  The certificate embeds the
   * new public key and is signed with `signer` when one is given, else with its
   * own new private key (`key ?? keypair.privateKey`).
   */
  function CreateCertificate(request: CertificateRequest, keyPair: KeyId, random: Hex.Bytes32): (r: Issued)
    ensures r.key == keyPair && r.cert.publicKey == keyPair
    ensures request.signer.None? ==> SelfSigned(r.cert)
    ensures request.signer.Some? ==> r.cert.signedWith == request.signer.value
    ensures |r.cert.serialNumber| == 64 && forall i :: 0 <= i < 64 ==> Hex.IsHexDigit(r.cert.serialNumber[i])
    ensures r.cert.subject == request.subject && r.cert.issuer == request.issuer
    ensures r.cert.extensions == request.extensions && r.cert.validityDays == request.duration
  {
    var signer := match request.signer case Some(k) => k case None => keyPair;
    Issued(keyPair, Certificate(Hex.Encode(random), request.subject, request.issuer, request.extensions,
                                request.duration, keyPair, signer))
  }

  function AuthorityAttributes(): seq<Attribute>
  {
    [ Attribute("commonName", "acedeed"),
      Attribute("countryName", "AU"),
      Attribute("stateOrProvinceName", "New South Wales"),
      Attribute("localityName", "Sydney"),
      Attribute("organizationName", "ACEDEED PTY LTD") ]
  }

  function AuthorityExtensions(): seq<Extension>
  {
    [ BasicConstraints(cA := true, critical := true),
      KeyUsage(digitalSignature := false, keyEncipherment := false, keyCertSign := true, critical := true) ]
  }

  function TlsAttributes(): seq<Attribute>
  {
    [ Attribute("commonName", "localhost") ]
  }

  function TlsExtensions(): seq<Extension>
  {
    [ BasicConstraints(cA := false, critical := true),
      KeyUsage(digitalSignature := true, keyEncipherment := true, keyCertSign := false, critical := true),
      ExtKeyUsage(serverAuth := true, clientAuth := true),
      SubjectAltName([ValueName(2, "localhost"), IpName(7, DevIp)]) ]
  }

  /** `createCertificateAuthority`: a self-signed, one-year authority whose subject is its issuer. */
  function CreateCertificateAuthority(keyPair: KeyId, random: Hex.Bytes32): (r: Issued)
    ensures r.key == keyPair && r.cert.publicKey == keyPair && SelfSigned(r.cert)
    ensures r.cert.subject == AuthorityAttributes() && r.cert.issuer == r.cert.subject
    ensures |r.cert.subject| == 5 && r.cert.subject[0] == Attribute("commonName", "acedeed")
    ensures r.cert.extensions == AuthorityExtensions() && AssertsCA(r.cert) && AssertsKeyCertSign(r.cert)
    ensures r.cert.validityDays == 365
  {
    var r := CreateCertificate(CertificateRequest(AuthorityAttributes(), AuthorityAttributes(), AuthorityExtensions(), ValidityDays, None),
                               keyPair, random);
    assert r.cert.extensions[0].BasicConstraints? && r.cert.extensions[0].cA;
    assert r.cert.extensions[1].KeyUsage? && r.cert.extensions[1].keyCertSign;
    r
  }

  /** `createTlsCertificate`: a one-year localhost leaf issued and signed by `authority`. */
  function CreateTlsCertificate(authority: Certificate, authorityKey: KeyId, keyPair: KeyId, random: Hex.Bytes32): (r: Issued)
    ensures r.key == keyPair && r.cert.publicKey == keyPair
    ensures r.cert.subject == TlsAttributes() && r.cert.issuer == authority.subject
    ensures r.cert.signedWith == authorityKey
    ensures r.cert.extensions == TlsExtensions() && !AssertsCA(r.cert)
    ensures HasAltName(r.cert, ValueName(DnsNameTag, "localhost")) && HasAltName(r.cert, IpName(IpAddressTag, DevIp))
    ensures r.cert.validityDays == 365
  {
    var r := CreateCertificate(CertificateRequest(TlsAttributes(), authority.subject, TlsExtensions(), ValidityDays, Some(authorityKey)),
                               keyPair, random);
    assert r.cert.extensions[3].SubjectAltName? && ValueName(DnsNameTag, "localhost") in r.cert.extensions[3].altNames;
    assert r.cert.extensions[3].SubjectAltName? && IpName(IpAddressTag, DevIp) in r.cert.extensions[3].altNames;
    r
  }

  /**
   * Bootstrap's two calls in order give a valid chain whose leaf key is not the
   * authority's, and with distinct random bytes, distinct serial numbers.
   */
  lemma BootstrapChain(caPair: KeyId, leafPair: KeyId, caRandom: Hex.Bytes32, leafRandom: Hex.Bytes32)
    requires caPair != leafPair
    ensures var authority := CreateCertificateAuthority(caPair, caRandom);
      var leaf := CreateTlsCertificate(authority.cert, authority.key, leafPair, leafRandom);
      && ValidChain(authority.cert, leaf.cert)
      && leaf.key != authority.key
      && (caRandom != leafRandom ==> leaf.cert.serialNumber != authority.cert.serialNumber)
  {
    var authority := CreateCertificateAuthority(caPair, caRandom);
    var leaf := CreateTlsCertificate(authority.cert, authority.key, leafPair, leafRandom);
    if leaf.cert.serialNumber == authority.cert.serialNumber {
      Hex.EncodeInjective(caRandom, leafRandom);
    }
  }
}
