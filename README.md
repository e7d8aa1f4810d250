# Self-signed CertificateRequest issuance

This project models `SelfSigned.Sign`, the self-signed issuer step of cert-manager's
CertificateRequest controller. It takes a request and a self-signed issuer and runs a fixed
pipeline, stopping at the first failure:

1. read the private-key annotation;
2. look the key up in the request's namespace;
3. generate a certificate template from the request;
4. replace the template's CRL distribution points with the issuer's;
5. warn when the subject DN is empty;
6. derive the public key;
7. check it against the template's key;
8. sign the template with itself as issuer.

Each failure is reported once to the issuer's reporter, either as `Failed` (terminal) or
`Pending` (retried on resync), with a fixed reason code. It then returns either nothing
(the failure is absorbed) or the error, so that the controller backs off. Only a key lookup
that failed for a reason other than "not found" or "invalid data" takes the second path. On
success the signed bytes are returned both as the certificate and as its CA.

Modules:

- `Errors`: Go errors and `(value, error)` results. An `Error` carries what the two
  classifiers `k8sErrors.IsNotFound` and `cmerrors.IsInvalidData` say about it. This lets
  the model keep the order in which `Sign` tests them.
- `Api`: the request, the issuer, the response, the annotation key and the warning event
  type.
- `Pki`: certificate templates, keys, names, the signing-function type and the library
  calls (`Library`).
- `Selfsigned`: the class `SelfSigned`, whose method `Sign` is written step by step like the
  source, with early returns.
  - The class holds the lookup, the library and the injected `signingFn` as constants, and
    the reporter and recorder as append-only logs.
  - `Sign` is proved against the function `Run`, which gives each call's `Outcome`: verdict,
    reports, events and the two return values.
  - `Consistent` is the failure table: condition, reason, returned error, at most one
    warning. `Run` establishes it for every call.
  - The class invariant `Valid()` keeps every past outcome in a ghost `history` and ties the
    logs to it.
- `SelfSignedProperties`: lemmas for each promised property of one call, and lemmas about
  the logs after any number of calls.

## Model

| member | source | states |
|---|---|---|
| `Selfsigned.SelfSigned.Sign` | pkg/controller/certificaterequests/selfsigned/selfsigned.go:80-183 | The step-by-step procedure appends exactly `Run`'s reports to the reporter and `Run`'s events to the recorder, and returns `Run`'s response and error. It keeps `Valid()`, so the logs stay the concatenation of the outcomes of all calls so far. |
| `Selfsigned.SelfSigned.constructor` | pkg/controller/certificaterequests/selfsigned/selfsigned.go:50-59 | A new issuer keeps the given lookup, library and signing function, and starts with empty reporter and recorder logs and an empty history. |
| `Selfsigned.Run` | pkg/controller/certificaterequests/selfsigned/selfsigned.go:80-183 | Every call satisfies the failure table: a rejected call gives exactly one report, with its failure's condition and reason; an issued call gives none, with certificate == CA. Every report and event is about the request itself. The annotation verdict holds exactly when the annotation is missing or empty. An error is returned exactly when the lookup in the request's namespace failed as neither "not found" nor "invalid data", and it is that lookup error. |
| `Selfsigned.Reason` | pkg/controller/certificaterequests/selfsigned/selfsigned.go:85-174 | The eight reason codes are distinct. Parsing a recorded reason gives back the failure. |
| `Selfsigned.WithIssuerCRLs` | pkg/controller/certificaterequests/selfsigned/selfsigned.go:133 | The template's CRL distribution points become exactly the issuer's, and subject, public key and every other field are unchanged. |
| `SelfSignedProperties.MissingAnnotationIsTerminal` | pkg/controller/certificaterequests/selfsigned/selfsigned.go:85-95 | A missing or empty annotation gives one `Failed` "MissingAnnotation" report with the error "secret name missing", no event, no response and no error. The outcome is the same for any lookup, library, signer and issuer, so no later step runs. |
| `SelfSignedProperties.LookupErrorClassification` | pkg/controller/certificaterequests/selfsigned/selfsigned.go:97-123 | A lookup error in the request's namespace is tested for "not found" first (`Pending` "MissingSecret"), then for "invalid data" (`Pending` "ErrorParsingKey"); both return nothing. Any other error gives `Pending` "ErrorGettingSecret" and returns that same error. |
| `SelfSignedProperties.OnlyTransientLookupErrorIsReturned` | pkg/controller/certificaterequests/selfsigned/selfsigned.go:117-123 | A call returns an error if and only if its verdict is ErrorGettingSecret. The error is the one in its single `Pending` report. |
| `SelfSignedProperties.IssuerCRLsOverrideRequest` | pkg/controller/certificaterequests/selfsigned/selfsigned.go:125-133 | Replacing the CRL distribution points of the generated template with any other list leaves the whole outcome unchanged. |
| `SelfSignedProperties.EmptySubjectWarns` | pkg/controller/certificaterequests/selfsigned/selfsigned.go:135-142 | Once the template exists, an empty subject DN emits exactly one Warning "BadConfig" event with the fixed empty-DN message, and a non-empty DN emits none. Either way the call goes on to the public-key checks. |
| `SelfSignedProperties.WarningDoesNotChangeOutcome` | pkg/controller/certificaterequests/selfsigned/selfsigned.go:135-151 | How the subject DN prints changes neither the verdict, the reports, the response nor the returned error. |
| `SelfSignedProperties.WarningIndependentOfLaterSteps` | pkg/controller/certificaterequests/selfsigned/selfsigned.go:135-174 | The events do not depend on key derivation, key comparison or signing, so the warning stays when any of them fails. |
| `SelfSignedProperties.GenerationFailureIsTerminal` | pkg/controller/certificaterequests/selfsigned/selfsigned.go:125-131 | A template-generation error gives one `Failed` "ErrorGenerating" report carrying that error, no event, no response and no error. |
| `SelfSignedProperties.PublicKeyFailureIsTerminal` | pkg/controller/certificaterequests/selfsigned/selfsigned.go:144-151 | A public-key derivation error gives one `Failed` "ErrorPublicKey" report carrying that error, no response and no error. |
| `SelfSignedProperties.KeyMismatchIsTerminal` | pkg/controller/certificaterequests/selfsigned/selfsigned.go:153-165 | A comparison that errs or says "not equal" gives one `Failed` "ErrorKeyMatch" report, no response and no error. The reported error is the comparison's error, or "CSR not signed by referenced private key" when there is none. |
| `SelfSignedProperties.SigningFailureIsTerminal` | pkg/controller/certificaterequests/selfsigned/selfsigned.go:167-174 | A signing error gives one `Failed` "ErrorSigning" report carrying that error, no response and no error. |
| `SelfSignedProperties.SuccessIsSelfSigned` | pkg/controller/certificaterequests/selfsigned/selfsigned.go:167-182 | When every step succeeds, the signer gets the issuer-adjusted template, with the issuer's CRL points, as both issuer and subject. Its bytes are returned as both certificate and CA, with no report and no error. |
| `SelfSignedProperties.EveryVerdictReachable` | pkg/controller/certificaterequests/selfsigned/selfsigned.go:85-182 | Some request and collaborators reach each of the eight failures and issuance, so no row of the failure table is dead. |
| `SelfSignedProperties.OneReportPerRejectedCall` | pkg/controller/certificaterequests/selfsigned/selfsigned.go:54 | After any sequence of calls, the reporter log has one entry per call that issued nothing, and none for the calls that issued. |
| `SelfSignedProperties.ReturnedErrorsAreBackoffReports` | pkg/controller/certificaterequests/selfsigned/selfsigned.go:117-123 | After any sequence of calls, the errors returned to the controller are, in order, exactly the errors of the "ErrorGettingSecret" reports. |
| `SelfSignedProperties.SignIsReproducible` | pkg/controller/certificaterequests/selfsigned/selfsigned.go:57-58 | With a deterministic injected signing function, two calls with the same request return identical results. A returned certificate equals its CA. |

## Left out

- Registration (`init`) and `NewSelfSigned`'s wiring of informers, clock and recorder are
  framework bootstrapping. The constructor only takes the three collaborators.
- Secret lookup and decoding (`kube.SecretTLSKey` over the lister) is an arbitrary function
  from (namespace, name) to a key or an error.
- The classifiers `IsNotFound` and `IsInvalidData` are two flags on the error value.
- The cryptography is arbitrary functions supplied by a `Library` value: template
  generation, `pkix.Name.String`, public-key derivation, key comparison and the default
  `pki.SignCertificate`. Real signing also depends on a clock and on randomness.
- The parsed certificate that the signing function returns is dropped, because `Sign`
  ignores it.
- Logging (`logf`, `log.Error`, `log.V`) is diagnostic output only.
- Report messages are not modelled. Only the condition, the request, the error and the
  reason are recorded, so the `fmt.Sprintf` messages, `%q` quoting and the issuer's resource
  namespace (used only in the message at :119) are out. The fixed error texts at :89 and
  :157 and the event message at :45 are modelled.
- The reporter's internals, such as condition timestamps and its own events, are not
  modelled. The recorder log holds only the events that `Sign` emits directly.
- `context.Context` is not modelled.
- The template is updated in place at :133. Here that update is a record update of a local,
  unshared value.
- The issuer's `selfSigned` section is always present in this model. The controller only
  calls this issuer for self-signed issuers; a missing section would panic at :133.
- The values of the annotation key and of the Warning event type come from packages that
  are not part of this model.
