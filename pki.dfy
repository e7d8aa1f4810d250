/** The X.509 values and library calls the self-signed issuer uses. Their
    cryptography is not modelled: each call is an arbitrary function that a
    `Library` value supplies. */
module Pki {
  import opened Errors
  import opened Api

  datatype PrivateKey = PrivateKey(der: seq<bv8>)

  datatype PublicKey = PublicKey(der: seq<bv8>)

  /** A distinguished name (`pkix.Name`) as its sequence of attribute type/value pairs. */
  datatype Name = Name(attributes: seq<(string, string)>)

  /** An `x509.Certificate` used as a template. `extensions` stands for every
      field the self-signed issuer neither reads nor writes. */
  datatype Certificate = Certificate(
    subject: Name,
    publicKey: PublicKey,
    crlDistributionPoints: seq<string>,
    extensions: seq<bv8>)

  /** What `pki.PublicKeysEqual` returns: `(bool, error)`. */
  datatype KeyComparison = KeyComparison(equal: bool, err: Option<Error>)

  /** What a signing function returns: `([]byte, *x509.Certificate, error)`;
      the parsed certificate is dropped because the caller ignores it. */
  datatype SignOutput = SignOutput(pem: seq<bv8>, err: Option<Error>)

  /** `signingFn(issuerTemplate, subjectTemplate, subjectPublicKey, issuerPrivateKey)`. */
  type SigningFn = (Certificate, Certificate, PublicKey, PrivateKey) -> SignOutput

  /** The package-level library calls: `pki.GenerateTemplateFromCertificateRequest`,
      `pkix.Name.String`, `pki.PublicKeyForPrivateKey` and `pki.PublicKeysEqual`. */
  datatype Library = Library(
    generateTemplate: CertificateRequest -> Result<Certificate>,
    nameString: Name -> string,
    publicKeyForPrivateKey: PrivateKey -> Result<PublicKey>,
    publicKeysEqual: (PublicKey, PublicKey) -> KeyComparison)
}
