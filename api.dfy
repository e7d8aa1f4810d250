/** The cert-manager API objects that the self-signed issuer reads or returns. */
module Api {

  /** Annotation on a CertificateRequest naming the Secret that holds its private key. */
  const PrivateKeyAnnotationKey: string := "cert-manager.io/private-key-secret-name"

  /** Kubernetes event type of a warning (`corev1.EventTypeWarning`). */
  const EventTypeWarning: string := "Warning"

  /** The parts of a CertificateRequest this core reads: its identity, its
      annotations and the encoded PKCS#10 request. */
  datatype CertificateRequest = CertificateRequest(
    name: string,
    namespace: string,
    annotations: map<string, string>,
    request: seq<bv8>)

  /** The `selfSigned` section of an issuer spec. */
  datatype SelfSignedIssuer = SelfSignedIssuer(crlDistributionPoints: seq<string>)

  /** An Issuer or ClusterIssuer whose spec is of the self-signed kind. */
  datatype GenericIssuer = GenericIssuer(name: string, selfSigned: SelfSignedIssuer)

  /** `issuer.IssueResponse`: the PEM certificate and the PEM CA. */
  datatype IssueResponse = IssueResponse(certificate: seq<bv8>, ca: seq<bv8>)
}
