/** The self-signed issuance step of the CertificateRequest controller: the
    decision procedure of `SelfSigned.Sign`, its failure classification, and
    the reporter and event-recorder logs it appends to. */
module Selfsigned {
  import opened Errors
  import opened Api
  import opened Pki

  /** Message of the warning event for a template whose subject DN is empty. */
  const EmptyDNMessage: string :=
    "Certificate will be issued with an empty Issuer DN, which contravenes RFC 5280 and could break some strict clients"

  /** Error reported when the private-key annotation is missing or empty. */
  const SecretNameMissing: string := "secret name missing"

  /** Error reported when the keys differ and the comparison itself did not fail. */
  const NotSignedByKey: string := "CSR not signed by referenced private key"

  /** Reason of the warning event for an empty subject DN. */
  const BadConfig: string := "BadConfig"

  /** `kube.SecretTLSKey` over the secrets lister: (namespace, secret name) to key. */
  type SecretKeyLookup = (string, string) -> Result<PrivateKey>

  /** The step at which a call to Sign gave up. */
  datatype Failure =
    | MissingAnnotation
    | MissingSecret
    | ErrorParsingKey
    | ErrorGettingSecret
    | ErrorGenerating
    | ErrorPublicKey
    | ErrorKeyMatch
    | ErrorSigning

  datatype Verdict = Issued | Rejected(failure: Failure)

  /** Which reporter method was called: `Reporter.Failed` or `Reporter.Pending`. */
  datatype Condition = Failed | Pending

  /** One call to the reporter: the request, the error and the reason code. */
  datatype Report = Report(condition: Condition, cr: CertificateRequest, err: Error, reason: string)

  /** One call to `recorder.Event`. */
  datatype Event = Event(object: CertificateRequest, eventType: string, reason: string, message: string)

  /** Everything one call to Sign does: how it ended, what it appended to the
      reporter and recorder logs, and its two return values. */
  datatype Outcome = Outcome(
    verdict: Verdict,
    reports: seq<Report>,
    events: seq<Event>,
    response: Option<IssueResponse>,
    err: Option<Error>)

  /** The reason code recorded for each failure. */
  function Reason(f: Failure): (r: string)
    ensures ParseReason(r) == Some(f)
  {
    match f
    case MissingAnnotation => "MissingAnnotation"
    case MissingSecret => "MissingSecret"
    case ErrorParsingKey => "ErrorParsingKey"
    case ErrorGettingSecret => "ErrorGettingSecret"
    case ErrorGenerating => "ErrorGenerating"
    case ErrorPublicKey => "ErrorPublicKey"
    case ErrorKeyMatch => "ErrorKeyMatch"
    case ErrorSigning => "ErrorSigning"
  }

  /** Recovers the failure from a recorded reason code. */
  function ParseReason(r: string): Option<Failure> {
    if r == "MissingAnnotation" then Some(MissingAnnotation)
    else if r == "MissingSecret" then Some(MissingSecret)
    else if r == "ErrorParsingKey" then Some(ErrorParsingKey)
    else if r == "ErrorGettingSecret" then Some(ErrorGettingSecret)
    else if r == "ErrorGenerating" then Some(ErrorGenerating)
    else if r == "ErrorPublicKey" then Some(ErrorPublicKey)
    else if r == "ErrorKeyMatch" then Some(ErrorKeyMatch)
    else if r == "ErrorSigning" then Some(ErrorSigning)
    else None
  }

  /** Failures of the key lookup are retried on the next resync (Pending);
      every other failure is terminal (Failed). */
  function ConditionOf(f: Failure): Condition {
    match f
    case MissingSecret | ErrorParsingKey | ErrorGettingSecret => Pending
    case _ => Failed
  }

  /** Only a lookup failure that is neither "not found" nor "invalid data" is
      handed back to the caller, so that it backs off and retries. */
  predicate Backoff(f: Failure) {
    f == ErrorGettingSecret
  }

  /** The call got past template generation, so the subject DN was inspected. */
  predicate ReachedSubjectCheck(v: Verdict) {
    v == Issued || v == Rejected(ErrorPublicKey) || v == Rejected(ErrorKeyMatch) || v == Rejected(ErrorSigning)
  }

  function BadConfigWarning(cr: CertificateRequest): Event {
    Event(cr, EventTypeWarning, BadConfig, EmptyDNMessage)
  }

  /** The failure table: a rejected call makes exactly one report, with the
      condition and reason code of its failure, and returns no response and
      an error only for the back-off failure, that very error; an issued
      call makes no report and returns a certificate that is its own CA. A
      call emits at most one event, the empty-DN warning, and only once it
      got past template generation. */
  predicate Consistent(o: Outcome) {
    && (match o.verdict
        case Issued =>
          && o.reports == []
          && o.err == None
          && o.response.Some?
          && o.response.value.certificate == o.response.value.ca
        case Rejected(f) =>
          && |o.reports| == 1
          && o.reports[0].condition == ConditionOf(f)
          && o.reports[0].reason == Reason(f)
          && o.response == None
          && o.err == (if Backoff(f) then Some(o.reports[0].err) else None))
    && |o.events| <= 1
    && (o.events != [] ==> ReachedSubjectCheck(o.verdict))
    && forall e <- o.events :: e.eventType == EventTypeWarning && e.reason == BadConfig && e.message == EmptyDNMessage
  }

  /** The secret named by the private-key annotation, if it is present and non-empty. */
  function SecretName(cr: CertificateRequest): Option<string> {
    if PrivateKeyAnnotationKey in cr.annotations && cr.annotations[PrivateKeyAnnotationKey] != "" then
      Some(cr.annotations[PrivateKeyAnnotationKey])
    else
      None
  }

  /** The issuer's CRL distribution points replace whatever the template held;
      no other field changes. */
  function WithIssuerCRLs(template: Certificate, issuerObj: GenericIssuer): (r: Certificate)
    ensures r.crlDistributionPoints == issuerObj.selfSigned.crlDistributionPoints
    ensures r.subject == template.subject && r.publicKey == template.publicKey
    ensures r.extensions == template.extensions
  {
    template.(crlDistributionPoints := issuerObj.selfSigned.crlDistributionPoints)
  }

  /** A rejected call: one report with the failure's condition and reason. */
  function Reject(f: Failure, cr: CertificateRequest, e: Error, events: seq<Event>): Outcome {
    Outcome(Rejected(f), [Report(ConditionOf(f), cr, e, Reason(f))], events, None,
            if Backoff(f) then Some(e) else None)
  }

  /** The lookup failure a lookup error is classified as: "not found" is
      tested before "invalid data". */
  function LookupFailure(e: Error): Failure {
    if e.isNotFound then MissingSecret
    else if e.isInvalidData then ErrorParsingKey
    else ErrorGettingSecret
  }

  /** What Sign does with the given collaborators, request and issuer. */
  function Run(secrets: SecretKeyLookup, pki: Library, signingFn: SigningFn,
               cr: CertificateRequest, issuerObj: GenericIssuer): (o: Outcome)
    ensures Consistent(o)
    ensures forall r <- o.reports :: r.cr == cr
    ensures forall e <- o.events :: e == BadConfigWarning(cr)
    ensures o.verdict == Rejected(MissingAnnotation) <==> SecretName(cr) == None
    ensures o.err != None <==>
              && SecretName(cr) != None
              && var lookup := secrets(cr.namespace, SecretName(cr).value);
              && lookup.Err? && !lookup.error.isNotFound && !lookup.error.isInvalidData
              && o.err == Some(lookup.error)
  {
    match SecretName(cr)
    case None => Reject(MissingAnnotation, cr, New(SecretNameMissing), [])
    case Some(secretName) =>
      match secrets(cr.namespace, secretName)
      case Err(e) => Reject(LookupFailure(e), cr, e, [])
      case Ok(privateKey) =>
        match pki.generateTemplate(cr)
        case Err(e) => Reject(ErrorGenerating, cr, e, [])
        case Ok(generated) =>
          var template := WithIssuerCRLs(generated, issuerObj);
          var events := if pki.nameString(template.subject) == "" then [BadConfigWarning(cr)] else [];
          match pki.publicKeyForPrivateKey(privateKey)
          case Err(e) => Reject(ErrorPublicKey, cr, e, events)
          case Ok(publicKey) =>
            var cmp := pki.publicKeysEqual(publicKey, template.publicKey);
            if cmp.err.Some? || !cmp.equal then
              Reject(ErrorKeyMatch, cr, cmp.err.GetOr(New(NotSignedByKey)), events)
            else
              var signed := signingFn(template, template, publicKey, privateKey);
              if signed.err.Some? then
                Reject(ErrorSigning, cr, signed.err.value, events)
              else
                Outcome(Issued, [], events, Some(IssueResponse(signed.pem, signed.pem)), None)
  }

  /** The reporter log after a sequence of calls. */
  function ReportLog(h: seq<Outcome>): seq<Report> {
    if h == [] then [] else ReportLog(h[..|h| - 1]) + h[|h| - 1].reports
  }

  /** The recorder log after a sequence of calls. */
  function EventLog(h: seq<Outcome>): seq<Event> {
    if h == [] then [] else EventLog(h[..|h| - 1]) + h[|h| - 1].events
  }

  /** The self-signed issuer. Its reporter and recorder are append-only logs
      shared by every call; `history` is the outcome of each call so far. */
  class SelfSigned {
    const secretsLister: SecretKeyLookup
    /** The package-level library calls, fixed for the life of the issuer. */
    const pki: Library
    /** Injected so that tests can sign reproducibly. */
    const signingFn: SigningFn

    var reporter: seq<Report>
    var recorder: seq<Event>
    ghost var history: seq<Outcome>

    ghost predicate Valid()
      reads this
    {
      && reporter == ReportLog(history)
      && recorder == EventLog(history)
      && forall o <- history :: Consistent(o)
    }

    constructor (secretsLister: SecretKeyLookup, pki: Library, signingFn: SigningFn)
      ensures Valid()
      ensures this.secretsLister == secretsLister && this.pki == pki && this.signingFn == signingFn
      ensures reporter == [] && recorder == [] && history == []
    {
      this.secretsLister := secretsLister;
      this.pki := pki;
      this.signingFn := signingFn;
      reporter := [];
      recorder := [];
      history := [];
    }

    /** Issues a self-signed certificate for `cr`, or reports why it cannot. */
    method Sign(cr: CertificateRequest, issuerObj: GenericIssuer)
      returns (response: Option<IssueResponse>, err: Option<Error>)
      requires Valid()
      modifies this
      ensures Valid()
      ensures var o := Run(secretsLister, pki, signingFn, cr, issuerObj);
              && history == old(history) + [o]
              && reporter == old(reporter) + o.reports
              && recorder == old(recorder) + o.events
              && response == o.response
              && err == o.err
    {
      ghost var o := Run(secretsLister, pki, signingFn, cr, issuerObj);
      assert (history + [o])[..|history|] == history;
      history := history + [o];

      if PrivateKeyAnnotationKey !in cr.annotations || cr.annotations[PrivateKeyAnnotationKey] == "" {
        var e := New(SecretNameMissing);
        reporter := reporter + [Report(Failed, cr, e, "MissingAnnotation")];
        return None, None;
      }
      var secretName := cr.annotations[PrivateKeyAnnotationKey];

      var privateKey := secretsLister(cr.namespace, secretName);
      if privateKey.Err? && privateKey.error.isNotFound {
        reporter := reporter + [Report(Pending, cr, privateKey.error, "MissingSecret")];
        return None, None;
      }
      if privateKey.Err? && privateKey.error.isInvalidData {
        reporter := reporter + [Report(Pending, cr, privateKey.error, "ErrorParsingKey")];
        return None, None;
      }
      if privateKey.Err? {
        reporter := reporter + [Report(Pending, cr, privateKey.error, "ErrorGettingSecret")];
        return None, Some(privateKey.error);
      }

      var generated := pki.generateTemplate(cr);
      if generated.Err? {
        reporter := reporter + [Report(Failed, cr, generated.error, "ErrorGenerating")];
        return None, None;
      }
      var template := generated.value;

      template := template.(crlDistributionPoints := issuerObj.selfSigned.crlDistributionPoints);

      if pki.nameString(template.subject) == "" {
        recorder := recorder + [Event(cr, EventTypeWarning, BadConfig, EmptyDNMessage)];
      }

      var publicKey := pki.publicKeyForPrivateKey(privateKey.value);
      if publicKey.Err? {
        reporter := reporter + [Report(Failed, cr, publicKey.error, "ErrorPublicKey")];
        return None, None;
      }

      var comparison := pki.publicKeysEqual(publicKey.value, template.publicKey);
      var ok, keyErr := comparison.equal, comparison.err;
      if keyErr.Some? || !ok {
        if keyErr.None? {
          keyErr := Some(New(NotSignedByKey));
        }
        reporter := reporter + [Report(Failed, cr, keyErr.value, "ErrorKeyMatch")];
        return None, None;
      }

      var signed := signingFn(template, template, publicKey.value, privateKey.value);
      if signed.err.Some? {
        reporter := reporter + [Report(Failed, cr, signed.err.value, "ErrorSigning")];
        return None, None;
      }

      return Some(IssueResponse(signed.pem, signed.pem)), None;
    }
  }
}
