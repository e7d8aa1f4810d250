/** What the self-signed issuer promises: the failure classification of one
    call to Sign, the self-signing invariant, the empty-DN warning, and what
    the reporter log holds after any number of calls. */
module SelfSignedProperties {
  import opened Errors
  import opened Api
  import opened Pki
  import opened Selfsigned

  // ---------------------------------------------------------------------
  // One call
  // ---------------------------------------------------------------------

  /** A missing or empty private-key annotation is a terminal configuration
      error, and nothing after the annotation is consulted: any lookup,
      library, signer and issuer give the same outcome. */
  lemma MissingAnnotationIsTerminal(
    secrets: SecretKeyLookup, pki: Library, signingFn: SigningFn, cr: CertificateRequest, issuerObj: GenericIssuer,
    otherSecrets: SecretKeyLookup, otherPki: Library, otherSigningFn: SigningFn, otherIssuer: GenericIssuer)
    requires PrivateKeyAnnotationKey !in cr.annotations || cr.annotations[PrivateKeyAnnotationKey] == ""
    ensures Run(secrets, pki, signingFn, cr, issuerObj)
            == Outcome(Rejected(MissingAnnotation), [Report(Failed, cr, New(SecretNameMissing), "MissingAnnotation")],
                       [], None, None)
    ensures Run(otherSecrets, otherPki, otherSigningFn, cr, otherIssuer) == Run(secrets, pki, signingFn, cr, issuerObj)
  {
  }

  /** A failed key lookup, made in the request's own namespace, is
      classified "not found" first, then "invalid data", then anything else;
      only the last returns the lookup error to the caller. */
  lemma LookupErrorClassification(
    secrets: SecretKeyLookup, pki: Library, signingFn: SigningFn, cr: CertificateRequest, issuerObj: GenericIssuer,
    secretName: string, e: Error)
    requires PrivateKeyAnnotationKey in cr.annotations && cr.annotations[PrivateKeyAnnotationKey] == secretName
    requires secretName != ""
    requires secrets(cr.namespace, secretName) == Err(e)
    ensures var o := Run(secrets, pki, signingFn, cr, issuerObj);
            && (e.isNotFound ==>
                  o == Outcome(Rejected(MissingSecret), [Report(Pending, cr, e, "MissingSecret")], [], None, None))
            && (!e.isNotFound && e.isInvalidData ==>
                  o == Outcome(Rejected(ErrorParsingKey), [Report(Pending, cr, e, "ErrorParsingKey")], [], None, None))
            && (!e.isNotFound && !e.isInvalidData ==>
                  o == Outcome(Rejected(ErrorGettingSecret), [Report(Pending, cr, e, "ErrorGettingSecret")], [], None, Some(e)))
  {
  }

  /** A call returns an error exactly when it was rejected with
      ErrorGettingSecret, and that error is the one it reported. */
  lemma OnlyTransientLookupErrorIsReturned(
    secrets: SecretKeyLookup, pki: Library, signingFn: SigningFn, cr: CertificateRequest, issuerObj: GenericIssuer)
    ensures var o := Run(secrets, pki, signingFn, cr, issuerObj);
            && (o.err != None <==> o.verdict == Rejected(ErrorGettingSecret))
            && (o.err != None ==> o.reports == [Report(Pending, cr, o.err.value, "ErrorGettingSecret")])
  {
  }

  /** The CRL distribution points of the generated template never matter:
      replacing them by any other list gives the same outcome, because the
      issuer's list overrides them before anything reads the template. */
  lemma IssuerCRLsOverrideRequest(
    secrets: SecretKeyLookup, pki: Library, signingFn: SigningFn, cr: CertificateRequest, issuerObj: GenericIssuer,
    crls: seq<string>)
    requires pki.generateTemplate(cr).Ok?
    ensures var t := pki.generateTemplate(cr).value;
            var replaced := pki.(generateTemplate := (r: CertificateRequest) =>
                                   if r == cr then Ok(t.(crlDistributionPoints := crls)) else pki.generateTemplate(r));
            Run(secrets, replaced, signingFn, cr, issuerObj) == Run(secrets, pki, signingFn, cr, issuerObj)
  {
  }

  /** Once the template exists, an empty subject DN emits exactly one
      BadConfig warning and a non-empty one emits none; either way the call
      goes on to the public-key checks. */
  lemma EmptySubjectWarns(
    secrets: SecretKeyLookup, pki: Library, signingFn: SigningFn, cr: CertificateRequest, issuerObj: GenericIssuer,
    secretName: string, privateKey: PrivateKey, template: Certificate)
    requires PrivateKeyAnnotationKey in cr.annotations && cr.annotations[PrivateKeyAnnotationKey] == secretName
    requires secretName != ""
    requires secrets(cr.namespace, secretName) == Ok(privateKey)
    requires pki.generateTemplate(cr) == Ok(template)
    ensures var o := Run(secrets, pki, signingFn, cr, issuerObj);
            && o.events == (if pki.nameString(template.subject) == "" then [BadConfigWarning(cr)] else [])
            && ReachedSubjectCheck(o.verdict)
  {
  }

  /** The warning is a side effect only: how the subject DN prints changes
      neither the verdict, nor the reports, nor what is returned. */
  lemma WarningDoesNotChangeOutcome(
    secrets: SecretKeyLookup, pki: Library, signingFn: SigningFn, cr: CertificateRequest, issuerObj: GenericIssuer,
    nameString: Name -> string)
    ensures var o := Run(secrets, pki, signingFn, cr, issuerObj);
            var o' := Run(secrets, pki.(nameString := nameString), signingFn, cr, issuerObj);
            o'.verdict == o.verdict && o'.reports == o.reports && o'.response == o.response && o'.err == o.err
  {
  }

  /** The warning is emitted before the public-key checks and the signing,
      so it does not depend on how they turn out. */
  lemma WarningIndependentOfLaterSteps(
    secrets: SecretKeyLookup, pki: Library, signingFn: SigningFn, cr: CertificateRequest, issuerObj: GenericIssuer,
    publicKeyForPrivateKey: PrivateKey -> Result<PublicKey>, publicKeysEqual: (PublicKey, PublicKey) -> KeyComparison,
    otherSigningFn: SigningFn)
    ensures var later := pki.(publicKeyForPrivateKey := publicKeyForPrivateKey, publicKeysEqual := publicKeysEqual);
            Run(secrets, later, otherSigningFn, cr, issuerObj).events == Run(secrets, pki, signingFn, cr, issuerObj).events
  {
  }

  /** Template generation failing is terminal. */
  lemma GenerationFailureIsTerminal(
    secrets: SecretKeyLookup, pki: Library, signingFn: SigningFn, cr: CertificateRequest, issuerObj: GenericIssuer,
    secretName: string, privateKey: PrivateKey, e: Error)
    requires PrivateKeyAnnotationKey in cr.annotations && cr.annotations[PrivateKeyAnnotationKey] == secretName
    requires secretName != ""
    requires secrets(cr.namespace, secretName) == Ok(privateKey)
    requires pki.generateTemplate(cr) == Err(e)
    ensures Run(secrets, pki, signingFn, cr, issuerObj)
            == Outcome(Rejected(ErrorGenerating), [Report(Failed, cr, e, "ErrorGenerating")], [], None, None)
  {
  }

  /** Deriving the public key failing is terminal; the warning, if any, stays. */
  lemma PublicKeyFailureIsTerminal(
    secrets: SecretKeyLookup, pki: Library, signingFn: SigningFn, cr: CertificateRequest, issuerObj: GenericIssuer,
    secretName: string, privateKey: PrivateKey, template: Certificate, e: Error)
    requires PrivateKeyAnnotationKey in cr.annotations && cr.annotations[PrivateKeyAnnotationKey] == secretName
    requires secretName != ""
    requires secrets(cr.namespace, secretName) == Ok(privateKey)
    requires pki.generateTemplate(cr) == Ok(template)
    requires pki.publicKeyForPrivateKey(privateKey) == Err(e)
    ensures var o := Run(secrets, pki, signingFn, cr, issuerObj);
            o == Outcome(Rejected(ErrorPublicKey), [Report(Failed, cr, e, "ErrorPublicKey")], o.events, None, None)
  {
  }

  /** A key comparison that errs or says "different" is terminal; when the
      comparison itself did not err, the reported error is the synthesised
      "CSR not signed by referenced private key". */
  lemma KeyMismatchIsTerminal(
    secrets: SecretKeyLookup, pki: Library, signingFn: SigningFn, cr: CertificateRequest, issuerObj: GenericIssuer,
    secretName: string, privateKey: PrivateKey, template: Certificate, publicKey: PublicKey)
    requires PrivateKeyAnnotationKey in cr.annotations && cr.annotations[PrivateKeyAnnotationKey] == secretName
    requires secretName != ""
    requires secrets(cr.namespace, secretName) == Ok(privateKey)
    requires pki.generateTemplate(cr) == Ok(template)
    requires pki.publicKeyForPrivateKey(privateKey) == Ok(publicKey)
    requires var c := pki.publicKeysEqual(publicKey, template.publicKey); c.err.Some? || !c.equal
    ensures var o := Run(secrets, pki, signingFn, cr, issuerObj);
            var c := pki.publicKeysEqual(publicKey, template.publicKey);
            && (c.err == None ==>
                  o == Outcome(Rejected(ErrorKeyMatch), [Report(Failed, cr, New(NotSignedByKey), "ErrorKeyMatch")],
                               o.events, None, None))
            && (c.err != None ==>
                  o == Outcome(Rejected(ErrorKeyMatch), [Report(Failed, cr, c.err.value, "ErrorKeyMatch")],
                               o.events, None, None))
  {
  }

  /** Signing failing is terminal. */
  lemma SigningFailureIsTerminal(
    secrets: SecretKeyLookup, pki: Library, signingFn: SigningFn, cr: CertificateRequest, issuerObj: GenericIssuer,
    secretName: string, privateKey: PrivateKey, template: Certificate, publicKey: PublicKey, e: Error)
    requires PrivateKeyAnnotationKey in cr.annotations && cr.annotations[PrivateKeyAnnotationKey] == secretName
    requires secretName != ""
    requires secrets(cr.namespace, secretName) == Ok(privateKey)
    requires pki.generateTemplate(cr) == Ok(template)
    requires pki.publicKeyForPrivateKey(privateKey) == Ok(publicKey)
    requires var c := pki.publicKeysEqual(publicKey, template.publicKey); c.err == None && c.equal
    requires var t := WithIssuerCRLs(template, issuerObj); signingFn(t, t, publicKey, privateKey).err == Some(e)
    ensures var o := Run(secrets, pki, signingFn, cr, issuerObj);
            o == Outcome(Rejected(ErrorSigning), [Report(Failed, cr, e, "ErrorSigning")], o.events, None, None)
  {
  }

  /** When every step succeeds, the signer gets the issuer-adjusted template
      as both issuer and subject, and its bytes are returned as the
      certificate and as the CA, with no report and no error. */
  lemma SuccessIsSelfSigned(
    secrets: SecretKeyLookup, pki: Library, signingFn: SigningFn, cr: CertificateRequest, issuerObj: GenericIssuer,
    secretName: string, privateKey: PrivateKey, template: Certificate, publicKey: PublicKey)
    requires PrivateKeyAnnotationKey in cr.annotations && cr.annotations[PrivateKeyAnnotationKey] == secretName
    requires secretName != ""
    requires secrets(cr.namespace, secretName) == Ok(privateKey)
    requires pki.generateTemplate(cr) == Ok(template)
    requires pki.publicKeyForPrivateKey(privateKey) == Ok(publicKey)
    requires var c := pki.publicKeysEqual(publicKey, template.publicKey); c.err == None && c.equal
    requires var t := WithIssuerCRLs(template, issuerObj); signingFn(t, t, publicKey, privateKey).err == None
    ensures var o := Run(secrets, pki, signingFn, cr, issuerObj);
            var t := WithIssuerCRLs(template, issuerObj);
            var pem := signingFn(t, t, publicKey, privateKey).pem;
            && t.crlDistributionPoints == issuerObj.selfSigned.crlDistributionPoints
            && o == Outcome(Issued, [], o.events, Some(IssueResponse(pem, pem)), None)
  {
  }

  /** Every verdict, each row of the failure table and success, is reached by
      some request and collaborators. */
  lemma EveryVerdictReachable(v: Verdict)
    ensures exists secrets: SecretKeyLookup, pki: Library, signingFn: SigningFn, cr: CertificateRequest, issuerObj: GenericIssuer
              :: Run(secrets, pki, signingFn, cr, issuerObj).verdict == v
  {
    var key := PrivateKey([]);
    var publicKey := PublicKey([]);
    var template := Certificate(Name([]), publicKey, [], []);
    var annotated := CertificateRequest("cr", "ns", map[PrivateKeyAnnotationKey := "tls"], []);
    var issuerObj := GenericIssuer("issuer", SelfSignedIssuer([]));
    var found: SecretKeyLookup := (ns: string, n: string) => Ok(key);
    var fine := Library((r: CertificateRequest) => Ok(template), (n: Name) => "CN=x",
                        (k: PrivateKey) => Ok(publicKey), (a: PublicKey, b: PublicKey) => KeyComparison(true, None));
    var signs: SigningFn := (i: Certificate, s: Certificate, p: PublicKey, k: PrivateKey) => SignOutput([1], None);
    var failing := Error("failed", false, false);
    match v
    case Issued =>
      assert Run(found, fine, signs, annotated, issuerObj).verdict == v;
    case Rejected(MissingAnnotation) =>
      var bare := CertificateRequest("cr", "ns", map[], []);
      assert Run(found, fine, signs, bare, issuerObj).verdict == v;
    case Rejected(MissingSecret) =>
      var lookup: SecretKeyLookup := (ns: string, n: string) => Err(Error("not found", true, false));
      assert Run(lookup, fine, signs, annotated, issuerObj).verdict == v;
    case Rejected(ErrorParsingKey) =>
      var lookup: SecretKeyLookup := (ns: string, n: string) => Err(Error("bad key", false, true));
      assert Run(lookup, fine, signs, annotated, issuerObj).verdict == v;
    case Rejected(ErrorGettingSecret) =>
      var lookup: SecretKeyLookup := (ns: string, n: string) => Err(failing);
      assert Run(lookup, fine, signs, annotated, issuerObj).verdict == v;
    case Rejected(ErrorGenerating) =>
      var pki := fine.(generateTemplate := (r: CertificateRequest) => Err(failing));
      assert Run(found, pki, signs, annotated, issuerObj).verdict == v;
    case Rejected(ErrorPublicKey) =>
      var pki := fine.(publicKeyForPrivateKey := (k: PrivateKey) => Err(failing));
      assert Run(found, pki, signs, annotated, issuerObj).verdict == v;
    case Rejected(ErrorKeyMatch) =>
      var pki := fine.(publicKeysEqual := (a: PublicKey, b: PublicKey) => KeyComparison(false, None));
      assert Run(found, pki, signs, annotated, issuerObj).verdict == v;
    case Rejected(ErrorSigning) =>
      var fails: SigningFn := (i: Certificate, s: Certificate, p: PublicKey, k: PrivateKey) => SignOutput([], Some(failing));
      assert Run(found, fine, fails, annotated, issuerObj).verdict == v;
  }

  // ---------------------------------------------------------------------
  // Many calls: what the issuer's logs hold (its Valid() ties them to history)
  // ---------------------------------------------------------------------

  /** How many calls issued a certificate. */
  function IssuedCount(h: seq<Outcome>): nat {
    if h == [] then 0 else IssuedCount(h[..|h| - 1]) + (if h[|h| - 1].verdict == Issued then 1 else 0)
  }

  /** The errors the calls returned to the controller, in order. */
  function ReturnedErrors(h: seq<Outcome>): seq<Error> {
    if h == [] then [] else ReturnedErrors(h[..|h| - 1]) + (match h[|h| - 1].err case Some(e) => [e] case None => [])
  }

  /** The errors of the reports that ask the controller to back off, in order. */
  function BackoffErrors(rs: seq<Report>): seq<Error> {
    if rs == [] then []
    else BackoffErrors(rs[..|rs| - 1]) + (if rs[|rs| - 1].reason == Reason(ErrorGettingSecret) then [rs[|rs| - 1].err] else [])
  }

  lemma {:induction false} PrefixConsistent(h: seq<Outcome>)
    requires h != [] && forall o <- h :: Consistent(o)
    ensures Consistent(h[|h| - 1]) && forall o <- h[..|h| - 1] :: Consistent(o)
  {
    assert h[|h| - 1] in h;
    forall o | o in h[..|h| - 1] ensures Consistent(o) {
      var i :| 0 <= i < |h| - 1 && h[..|h| - 1][i] == o;
      assert h[i] == o;
    }
  }

  /** The reporter log holds exactly one report per call that issued nothing. */
  lemma {:induction false} OneReportPerRejectedCall(h: seq<Outcome>)
    requires forall o <- h :: Consistent(o)
    ensures |ReportLog(h)| + IssuedCount(h) == |h|
  {
    if h != [] {
      PrefixConsistent(h);
      OneReportPerRejectedCall(h[..|h| - 1]);
    }
  }

  lemma {:induction false} BackoffErrorsAppend(a: seq<Report>, b: seq<Report>)
    ensures BackoffErrors(a + b) == BackoffErrors(a) + BackoffErrors(b)
  {
    if b != [] {
      assert (a + b)[..|a + b| - 1] == a + b[..|b| - 1];
      BackoffErrorsAppend(a, b[..|b| - 1]);
    } else {
      assert a + b == a;
    }
  }

  /** The errors handed back to the controller are, in order, exactly the
      errors of the ErrorGettingSecret reports: no other report comes with a
      returned error, and no returned error goes unreported. */
  lemma {:induction false} ReturnedErrorsAreBackoffReports(h: seq<Outcome>)
    requires forall o <- h :: Consistent(o)
    ensures ReturnedErrors(h) == BackoffErrors(ReportLog(h))
  {
    if h != [] {
      var last := h[|h| - 1];
      PrefixConsistent(h);
      ReturnedErrorsAreBackoffReports(h[..|h| - 1]);
      BackoffErrorsAppend(ReportLog(h[..|h| - 1]), last.reports);
      assert BackoffErrors(last.reports) == (match last.err case Some(e) => [e] case None => []) by {
        if last.reports != [] {
          assert last.reports[..0] == [];
          assert ParseReason(last.reports[0].reason) == Some(last.verdict.failure);
        }
      }
    }
  }

  /** Two calls with the same request on a fresh issuer, with a deterministic
      signing function, return the same thing and append the same reports. */
  method SignIsReproducible(
    secretsLister: SecretKeyLookup, pki: Library, signingFn: SigningFn, cr: CertificateRequest, issuerObj: GenericIssuer)
    returns (first: (Option<IssueResponse>, Option<Error>), second: (Option<IssueResponse>, Option<Error>))
    ensures first == second
    ensures first.0 != None ==> first.0.value.certificate == first.0.value.ca
  {
    var s := new SelfSigned(secretsLister, pki, signingFn);
    var response, err := s.Sign(cr, issuerObj);
    first := (response, err);
    response, err := s.Sign(cr, issuerObj);
    second := (response, err);
  }
}
