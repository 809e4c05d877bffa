/** `Client`: the checks on its configuration, the choice of HTTP method, the
    per-profile capability cache, the cache of CA certificates the user has
    accepted, and the reading of a finished transaction's state. The network
    requests themselves are passed in as their results. */
module Client {
  import opened Wrappers
  import opened Asn1
  import opened X509
  import opened FailInfos
  import opened Exceptions
  import opened Capabilities
  import opened Enrolment
  import MessageEncoder
  import Messages

  datatype Url = Url(protocol: string, authority: string, path: string, ref: Option<string>, query: Option<string>)

  /** What the user's callback handler answers for a CA certificate: the
      fingerprint was accepted or rejected, the callback is not supported,
      or the handler itself failed with an IOException carrying `message`. */
  datatype Verdict = Accepted | Rejected | UnsupportedCallback | HandlerFailed(message: string)

  /** A validated configuration. `profile` is the optional CA identifier. */
  datatype Config = Config(
    url: Url,
    identity: Cert,
    priKey: MessageEncoder.PrivateKey,
    handler: Cert -> Verdict,
    profile: Option<string>)

  /** The mutable part of a client: capabilities by profile and the CA
      certificates already accepted. */
  datatype ClientState = ClientState(capabilitiesCache: map<Option<string>, Caps>, verified: set<Cert>)

  const Initial := ClientState(map[], {})

  /** `validateInput`: null checks first, in field order, then the key
      algorithms, then the shape of the URL. */
  function ValidateInput(url: Option<Url>, identity: Option<Cert>, priKey: Option<MessageEncoder.PrivateKey>,
                         handler: Option<Cert -> Verdict>, profile: Option<string>): (r: Result<Config, Exception>)
    ensures url.None? ==> r == Err(NullPointer("URL should not be null"))
    ensures url.Some? && identity.None? ==> r == Err(NullPointer("Identity should not be null"))
    ensures url.Some? && identity.Some? && priKey.None? ==> r == Err(NullPointer("Private key should not be null"))
    ensures url.Some? && identity.Some? && priKey.Some? && handler.None? ==>
      r == Err(NullPointer("Callback handler should not be null"))
    ensures r.Err? && url.Some? && identity.Some? && priKey.Some? && handler.Some? ==> r.error.IllegalArgument?
    ensures r.Ok? <==>
      && url.Some? && identity.Some? && priKey.Some? && handler.Some?
      && identity.value.publicKey.algorithm == "RSA"
      && priKey.value.algorithm == "RSA"
      && (url.value.protocol == "http" || url.value.protocol == "https")
      && url.value.ref.None? && url.value.query.None?
    ensures r.Ok? ==> r.value == Config(url.value, identity.value, priKey.value, handler.value, profile)
  {
    if url.None? then Err(NullPointer("URL should not be null"))
    else if identity.None? then Err(NullPointer("Identity should not be null"))
    else if priKey.None? then Err(NullPointer("Private key should not be null"))
    else if handler.None? then Err(NullPointer("Callback handler should not be null"))
    else if identity.value.publicKey.algorithm != "RSA" then Err(IllegalArgument("Public key algorithm should be RSA"))
    else if priKey.value.algorithm != "RSA" then Err(IllegalArgument("Private key algorithm should be RSA"))
    else if !ProtocolMatches(url.value.protocol) then Err(IllegalArgument("URL protocol should be HTTP or HTTPS"))
    else if url.value.ref.Some? then Err(IllegalArgument("URL should contain no reference"))
    else if url.value.query.Some? then Err(IllegalArgument("URL should contain no query string"))
    else Ok(Config(url.value, identity.value, priKey.value, handler.value, profile))
  }

  /** The pattern `^https?$`, spelled out: "http" optionally followed by
      one "s", and nothing else. */
  predicate ProtocolMatches(protocol: string) {
    && |protocol| >= 4 && protocol[..4] == "http"
    && (|protocol| == 4 || (|protocol| == 5 && protocol[4] == 's'))
  }

  lemma ProtocolPattern(protocol: string)
    ensures ProtocolMatches(protocol) <==> protocol == "http" || protocol == "https"
  {
    if ProtocolMatches(protocol) && |protocol| == 5 {
      assert protocol == protocol[..4] + [protocol[4]];
    }
  }

  /** Capabilities for the configured profile, and the cache afterwards. */
  datatype CapsStep = CapsStep(result: Result<Caps, Exception>, state: ClientState)

  /** `getCaCapabilities(useCache)`: a cached value is used only when asked
      for; otherwise the capabilities are fetched (`fetch` is the GetCACaps
      request for the profile) and stored over any earlier value. */
  function GetCaCapabilities(c: Config, st: ClientState, useCache: bool, fetch: Result<Caps, Exception>): (s: CapsStep)
    ensures useCache && c.profile in st.capabilitiesCache ==> s == CapsStep(Ok(st.capabilitiesCache[c.profile]), st)
    ensures !(useCache && c.profile in st.capabilitiesCache) && fetch.Ok? ==>
      s.result == fetch && s.state == st.(capabilitiesCache := st.capabilitiesCache[c.profile := fetch.value])
    ensures !(useCache && c.profile in st.capabilitiesCache) && fetch.Err? ==> s == CapsStep(fetch, st)
    ensures s.state.verified == st.verified
    ensures s.result.Ok? ==> c.profile in s.state.capabilitiesCache && s.state.capabilitiesCache[c.profile] == s.result.value
  {
    if useCache && c.profile in st.capabilitiesCache then CapsStep(Ok(st.capabilitiesCache[c.profile]), st)
    else match fetch
      case Err(e) => CapsStep(Err(e), st)
      case Ok(caps) => CapsStep(Ok(caps), st.(capabilitiesCache := st.capabilitiesCache[c.profile := caps]))
  }

  /** Once fetched, the cached capabilities are answered without a request:
      the second lookup is independent of what a new fetch would return. */
  lemma CachedCapabilitiesReused(c: Config, st: ClientState, fetch1: Result<Caps, Exception>, fetch2: Result<Caps, Exception>)
    requires GetCaCapabilities(c, st, true, fetch1).result.Ok?
    ensures var s1 := GetCaCapabilities(c, st, true, fetch1);
            GetCaCapabilities(c, s1.state, true, fetch2) == CapsStep(s1.result, s1.state)
  {
  }

  datatype HttpMethod = GET | POST

  datatype TransportStep = TransportStep(result: Result<HttpMethod, Exception>, state: ClientState)

  /** `createTransport`: POST exactly when the (possibly cached) capabilities
      report PKIOperation over POST. */
  function CreateTransport(c: Config, st: ClientState, fetch: Result<Caps, Exception>): (s: TransportStep)
    ensures s.state == GetCaCapabilities(c, st, true, fetch).state
    ensures var caps := GetCaCapabilities(c, st, true, fetch).result;
      && (caps.Err? ==> s.result == Err(caps.error))
      && (caps.Ok? ==> s.result == Ok(if IsPostSupported(caps.value) then POST else GET))
  {
    var capsStep := GetCaCapabilities(c, st, true, fetch);
    match capsStep.result
    case Err(e) => TransportStep(Err(e), capsStep.state)
    case Ok(caps) => TransportStep(Ok(if IsPostSupported(caps) then POST else GET), capsStep.state)
  }

  /** A CA that advertises nothing is spoken to with GET. */
  lemma NoCapabilitiesMeansGet(c: Config)
    ensures CreateTransport(c, Initial, Ok(FromArgs([]))).result == Ok(GET)
  {
    EmptyCapabilities([]);
  }

  datatype VerifyStep = VerifyStep(result: Result<Cert, Exception>, state: ClientState)

  /** `verifyCA`: a certificate accepted before is not presented again; a
      new one is put to the callback handler and remembered only if
      accepted. */
  function VerifyCa(c: Config, st: ClientState, cert: Cert): (s: VerifyStep)
    ensures cert in st.verified ==> s == VerifyStep(Ok(cert), st)
    ensures cert !in st.verified && c.handler(cert) == Accepted ==>
      s == VerifyStep(Ok(cert), st.(verified := st.verified + {cert}))
    ensures cert !in st.verified && c.handler(cert) == Rejected ==>
      s == VerifyStep(Err(Io("CA certificate fingerprint could not be verified.")), st)
    ensures cert !in st.verified && c.handler(cert) == UnsupportedCallback ==>
      s.result.Err? && s.result.error.Runtime? && s.state == st
    ensures cert !in st.verified && c.handler(cert).HandlerFailed? ==>
      s == VerifyStep(Err(Io(c.handler(cert).message)), st)
    ensures s.result.Ok? <==> cert in s.state.verified
    ensures s.state.capabilitiesCache == st.capabilitiesCache
  {
    if cert in st.verified then VerifyStep(Ok(cert), st)
    else match c.handler(cert)
      case UnsupportedCallback => VerifyStep(Err(Runtime("UnsupportedCallbackException")), st)
      case Rejected => VerifyStep(Err(Io("CA certificate fingerprint could not be verified.")), st)
      case Accepted => VerifyStep(Ok(cert), st.(verified := st.verified + {cert}))
      case HandlerFailed(message) => VerifyStep(Err(Io(message)), st)
  }

  /** The callback runs at most once per accepted certificate: verifying it
      again succeeds even with a handler that would now reject it. */
  lemma AcceptedOnce(c: Config, st: ClientState, cert: Cert, later: Cert -> Verdict)
    requires VerifyCa(c, st, cert).result.Ok?
    ensures VerifyCa(c.(handler := later), VerifyCa(c, st, cert).state, cert).result.Ok?
  {
  }

  /** The CRL reported for a finished GetCRL transaction: the first CRL of
      the issued bundle, or none when the bundle carries no CRL. */
  function RevocationListResult(state: State): (r: Result<Option<Crl>, Exception>)
    ensures state.CertIssued? ==> r.Ok? && (r.value.None? <==> |state.crls| == 0)
    ensures state.CertIssued? && |state.crls| > 0 ==> r == Ok(Some(state.crls[0]))
    ensures state.CertReqPending? ==> r == Err(IllegalState)
    ensures state.CertFailed? ==> r == Err(OperationFailure(state.failInfo))
  {
    match state
    case CertIssued(_, crls) => if |crls| == 0 then Ok(None) else Ok(Some(crls[0]))
    case CertReqPending => Err(IllegalState)
    case CertFailed(f) => Err(OperationFailure(f))
  }


  /** A client operation's outcome together with the caches afterwards. */
  datatype QueryStep<T> = QueryStep(result: Result<T, Exception>, state: ClientState)

  /** `retrieveCA`, that is `getCaCertificate` followed by choosing the CA:
      `ca` is the outcome of the GetCACert request together with the choice
      of the CA from the returned store (`X509CertificatePairFactory`, not
      part of this model). The chosen certificate must pass `verifyCA`
      before anything is done with it. */
  function RetrieveCa(c: Config, st: ClientState, ca: Result<Cert, Exception>): (s: VerifyStep)
    ensures ca.Err? ==> s == VerifyStep(ca, st)
    ensures ca.Ok? ==> s == VerifyCa(c, st, ca.value)
    ensures s.result.Ok? <==> ca.Ok? && ca.value in s.state.verified
    ensures s.result.Ok? ==> s.result == ca
    ensures st.verified <= s.state.verified && s.state.capabilitiesCache == st.capabilitiesCache
  {
    match ca
    case Err(e) => VerifyStep(Err(e), st)
    case Ok(cert) => VerifyCa(c, st, cert)
  }

  /** A query's transaction as `getRevocationList` and `getCertificate`
      build it: the method is chosen from the cached capabilities
      (`createTransport`, where `fetch` answers a cache miss); then
      `getEncoder` fetches the CA store again and verifies its CA (`ca2`,
      as in `RetrieveCa`); only then is the request for `data` sent, `send`
      being the outcome of the transaction over that method. */
  function Transact(c: Config, st: ClientState, fetch: Result<Caps, Exception>, ca2: Result<Cert, Exception>,
                    data: Messages.MessageData,
                    send: (HttpMethod, Messages.MessageData) -> Result<State, Exception>): (s: QueryStep<State>)
    ensures var t := CreateTransport(c, st, fetch);
      t.result.Err? ==> s == QueryStep(Err(t.result.error), t.state)
    ensures var t := CreateTransport(c, st, fetch);
      var v := RetrieveCa(c, t.state, ca2);
      t.result.Ok? ==>
        && s.state == v.state
        && (v.result.Err? ==> s.result == Err(v.result.error))
        && (v.result.Ok? ==> s.result == send(t.result.value, data))
    ensures s.result.Ok? ==> ca2.Ok? && ca2.value in s.state.verified
    ensures st.verified <= s.state.verified
  {
    var t := CreateTransport(c, st, fetch);
    match t.result
    case Err(e) => QueryStep(Err(e), t.state)
    case Ok(m) =>
      var v := RetrieveCa(c, t.state, ca2);
      match v.result
      case Err(e) => QueryStep(Err(e), v.state)
      case Ok(_) => QueryStep(send(m, data), v.state)
  }

  /** `getRevocationList(issuer, serial)`: the CA is retrieved and verified
      first; a CA certificate with CRL distribution points (the extension
      2.5.29.31, `hasDistributionPoints`) is refused; otherwise the GetCRL
      transaction for the issuer and serial runs and its final state is
      read. */
  function GetRevocationList(c: Config, st: ClientState, ca: Result<Cert, Exception>, hasDistributionPoints: Cert -> bool,
                             fetch: Result<Caps, Exception>, ca2: Result<Cert, Exception>, issuer: Name, serial: nat,
                             send: (HttpMethod, Messages.MessageData) -> Result<State, Exception>): (s: QueryStep<Option<Crl>>)
    ensures var v := RetrieveCa(c, st, ca);
      v.result.Err? ==> s == QueryStep(Err(v.result.error), v.state)
    ensures var v := RetrieveCa(c, st, ca);
      v.result.Ok? && hasDistributionPoints(v.result.value) ==> s == QueryStep(Err(Runtime("Unimplemented")), v.state)
    ensures var v := RetrieveCa(c, st, ca);
      var tx := Transact(c, v.state, fetch, ca2, Messages.IssuerAndSerial(issuer, serial), send);
      v.result.Ok? && !hasDistributionPoints(v.result.value) ==>
        && s.state == tx.state
        && s.result == if tx.result.Err? then Err(tx.result.error) else RevocationListResult(tx.result.value)
    ensures s.result.Ok? ==>
      && ca.Ok? && ca.value in s.state.verified && !hasDistributionPoints(ca.value)
      && ca2.Ok? && ca2.value in s.state.verified
    ensures st.verified <= s.state.verified
  {
    var v := RetrieveCa(c, st, ca);
    match v.result
    case Err(e) => QueryStep(Err(e), v.state)
    case Ok(cert) =>
      if hasDistributionPoints(cert) then QueryStep(Err(Runtime("Unimplemented")), v.state)
      else
        var tx := Transact(c, v.state, fetch, ca2, Messages.IssuerAndSerial(issuer, serial), send);
        match tx.result
        case Err(e) => QueryStep(Err(e), tx.state)
        case Ok(state) => QueryStep(RevocationListResult(state), tx.state)
  }

  /** Both CA fetches of a query count: when the store fetched again holds a
      different CA and the user accepts both, both are remembered. */
  lemma BothCasRemembered(c: Config, st: ClientState, a: Cert, b: Cert, hasDistributionPoints: Cert -> bool,
                          fetch: Result<Caps, Exception>, issuer: Name, serial: nat,
                          send: (HttpMethod, Messages.MessageData) -> Result<State, Exception>)
    requires c.handler(a) == Accepted && c.handler(b) == Accepted
    requires !hasDistributionPoints(a) && fetch.Ok?
    ensures GetRevocationList(c, st, Ok(a), hasDistributionPoints, fetch, Ok(b), issuer, serial, send).state.verified
         == st.verified + {a, b}
    ensures GetCertificate(c, st, Ok(a), fetch, Ok(b), serial, send).state.verified == st.verified + {a, b}
  {
  }

  /** The certificates reported for a finished GetCert transaction. */
  function CertificateResult(state: State): (r: Result<seq<Cert>, Exception>)
    ensures r.Ok? <==> state.CertIssued?
    ensures state.CertIssued? ==> r == Ok(state.certs)
    ensures state.CertReqPending? ==> r == Err(IllegalState)
    ensures state.CertFailed? ==> r == Err(OperationFailure(state.failInfo))
  {
    match state
    case CertIssued(certs, _) => Ok(certs)
    case CertReqPending => Err(IllegalState)
    case CertFailed(f) => Err(OperationFailure(f))
  }

  /** A CERT_ISSUED state is the only way either query succeeds, and a
      FAILURE state surfaces with the same failInfo from both. */
  lemma QueriesAgreeOnState(state: State)
    ensures CertificateResult(state).Ok? <==> RevocationListResult(state).Ok?
    ensures state.CertFailed? ==> CertificateResult(state).error == RevocationListResult(state).error
  {
  }

  /** `getCertificate(serial)` as written: after retrieving the CA it runs
      the GetCert transaction for the certificate named by the CA
      certificate's own issuer and serial number. The `serial` argument is
      never read. */
  function GetCertificate(c: Config, st: ClientState, ca: Result<Cert, Exception>, fetch: Result<Caps, Exception>,
                          ca2: Result<Cert, Exception>, serial: nat,
                          send: (HttpMethod, Messages.MessageData) -> Result<State, Exception>): (s: QueryStep<seq<Cert>>)
    ensures var v := RetrieveCa(c, st, ca);
      v.result.Err? ==> s == QueryStep(Err(v.result.error), v.state)
    ensures var v := RetrieveCa(c, st, ca);
      v.result.Ok? ==>
        var tx := Transact(c, v.state, fetch, ca2, Messages.IssuerAndSerial(v.result.value.issuer, v.result.value.serial), send);
        && s.state == tx.state
        && s.result == if tx.result.Err? then Err(tx.result.error) else CertificateResult(tx.result.value)
    ensures s.result.Ok? ==> ca.Ok? && ca.value in s.state.verified && ca2.Ok? && ca2.value in s.state.verified
    ensures st.verified <= s.state.verified
  {
    var v := RetrieveCa(c, st, ca);
    match v.result
    case Err(e) => QueryStep(Err(e), v.state)
    case Ok(cert) => CertificateQuery(c, v.state, fetch, ca2, Messages.IssuerAndSerial(cert.issuer, cert.serial), send)
  }

  /** `getCertificate(serial)` as its documentation describes it: the
      certificate with the given serial number, as issued by the current CA,
      that is named by the CA's subject and `serial`. */
  function GetCertificateIntended(c: Config, st: ClientState, ca: Result<Cert, Exception>, fetch: Result<Caps, Exception>,
                                  ca2: Result<Cert, Exception>, serial: nat,
                                  send: (HttpMethod, Messages.MessageData) -> Result<State, Exception>): (s: QueryStep<seq<Cert>>)
    ensures var v := RetrieveCa(c, st, ca);
      v.result.Err? ==> s == QueryStep(Err(v.result.error), v.state)
    ensures s.result.Ok? ==> ca.Ok? && ca.value in s.state.verified && ca2.Ok? && ca2.value in s.state.verified
    ensures st.verified <= s.state.verified
  {
    var v := RetrieveCa(c, st, ca);
    match v.result
    case Err(e) => QueryStep(Err(e), v.state)
    case Ok(cert) => CertificateQuery(c, v.state, fetch, ca2, Messages.IssuerAndSerial(cert.subject, serial), send)
  }

  /** The GetCert transaction for `data`, and the certificates it yields. */
  function CertificateQuery(c: Config, st: ClientState, fetch: Result<Caps, Exception>, ca2: Result<Cert, Exception>,
                            data: Messages.MessageData,
                            send: (HttpMethod, Messages.MessageData) -> Result<State, Exception>): (s: QueryStep<seq<Cert>>)
    ensures s.state == Transact(c, st, fetch, ca2, data, send).state
    ensures s.result.Ok? ==> Transact(c, st, fetch, ca2, data, send).result.Ok?
  {
    var tx := Transact(c, st, fetch, ca2, data, send);
    match tx.result
    case Err(e) => QueryStep(Err(e), tx.state)
    case Ok(state) => QueryStep(CertificateResult(state), tx.state)
  }

  /** A CA that answers a GetCert query only with certificates carrying the
      issuer and serial number it was asked for. */
  ghost predicate AnswersAsAsked(send: (HttpMethod, Messages.MessageData) -> Result<State, Exception>) {
    forall m: HttpMethod, n: Name, k: nat ::
      var sent := send(m, Messages.IssuerAndSerial(n, k));
      sent.Ok? && sent.value.CertIssued? ==> forall x :: x in sent.value.certs ==> x.issuer == n && x.serial == k
  }

  /** Against a CA that answers as asked, the corrected query returns only
      certificates with the requested serial number, issued by the CA. */
  lemma IntendedAnswersTheSerial(c: Config, st: ClientState, ca: Result<Cert, Exception>, fetch: Result<Caps, Exception>,
                                 ca2: Result<Cert, Exception>, serial: nat,
                                 send: (HttpMethod, Messages.MessageData) -> Result<State, Exception>)
    requires AnswersAsAsked(send)
    ensures var s := GetCertificateIntended(c, st, ca, fetch, ca2, serial, send);
      s.result.Ok? ==> ca.Ok? && forall x :: x in s.result.value ==> x.serial == serial && x.issuer == ca.value.subject
  {
  }

  /** The query as written cannot tell serial numbers apart: whatever is
      asked for, the outcome is the same. */
  lemma CertificateIgnoresSerial(c: Config, st: ClientState, ca: Result<Cert, Exception>, fetch: Result<Caps, Exception>,
                                 ca2: Result<Cert, Exception>, serial1: nat, serial2: nat,
                                 send: (HttpMethod, Messages.MessageData) -> Result<State, Exception>)
    ensures GetCertificate(c, st, ca, fetch, ca2, serial1, send) == GetCertificate(c, st, ca, fetch, ca2, serial2, send)
  {
  }

  /** A concrete case: a CA certificate with serial number 1, already
      accepted, and a query for serial number 42. A CA that answers as asked
      returns its own certificate, never one with serial number 42, while
      the corrected query returns the certificate asked for. */
  lemma AskedSerialIgnored()
    ensures var ca := Cert(Name([]), Name([]), 1, PublicKey("RSA", []), None, None);
      var wanted := Cert(Name([]), Name([]), 42, PublicKey("RSA", []), None, None);
      var c := Config(Url("http", "ca", "/", None, None), ca, MessageEncoder.PrivateKey("RSA", []), _ => Accepted, None);
      var st := ClientState(map[], {ca});
      var send := (m: HttpMethod, d: Messages.MessageData) =>
        if d.IssuerAndSerial? then Ok(CertIssued([Cert(Name([]), d.issuerName, d.serial, PublicKey("RSA", []), None, None)], []))
        else Ok(CertReqPending);
      && AnswersAsAsked(send)
      && GetCertificate(c, st, Ok(ca), Ok(FromArgs([])), Ok(ca), 42, send).result == Ok([ca])
      && GetCertificateIntended(c, st, Ok(ca), Ok(FromArgs([])), Ok(ca), 42, send).result == Ok([wanted])
  {
  }

  /** `getRolloverCertificate`: capabilities are always fetched afresh (and
      cached); without GetNextCACert support it throws before any other
      request. Otherwise `getRecipientCertificate` fetches the CA store,
      which verifies the CA (`ca`, as in `RetrieveCa`), and `next` is the
      outcome of the GetNextCACert request. */
  function GetRolloverCertificate(c: Config, st: ClientState, fetch: Result<Caps, Exception>, ca: Result<Cert, Exception>,
                                  next: Result<seq<Cert>, Exception>): (s: QueryStep<seq<Cert>>)
    ensures var caps := GetCaCapabilities(c, st, false, fetch);
      caps.result.Err? ==> s == QueryStep(Err(caps.result.error), caps.state)
    ensures var caps := GetCaCapabilities(c, st, false, fetch);
      caps.result.Ok? && !IsRolloverSupported(caps.result.value) ==> s == QueryStep(Err(UnsupportedOperation), caps.state)
    ensures var caps := GetCaCapabilities(c, st, false, fetch);
      var v := RetrieveCa(c, caps.state, ca);
      caps.result.Ok? && IsRolloverSupported(caps.result.value) ==>
        && s.state == v.state
        && (v.result.Err? ==> s.result == Err(v.result.error))
        && (v.result.Ok? ==> s.result == next)
    ensures s.result.Ok? ==> fetch.Ok? && IsRolloverSupported(fetch.value) && ca.Ok? && ca.value in s.state.verified
    ensures st.verified <= s.state.verified
  {
    var capsStep := GetCaCapabilities(c, st, false, fetch);
    match capsStep.result
    case Err(e) => QueryStep(Err(e), capsStep.state)
    case Ok(caps) =>
      if !IsRolloverSupported(caps) then QueryStep(Err(UnsupportedOperation), capsStep.state)
      else
        var v := RetrieveCa(c, capsStep.state, ca);
        match v.result
        case Err(e) => QueryStep(Err(e), v.state)
        case Ok(_) => QueryStep(next, v.state)
  }

  /** A CA certificate the user rejects stops every query before its own
      request is sent: the query fails with the IOException of `verifyCA`,
      and the CA is not remembered. */
  lemma RejectedCaStopsQueries(c: Config, st: ClientState, cert: Cert, hasDistributionPoints: Cert -> bool,
                               fetch: Result<Caps, Exception>, ca2: Result<Cert, Exception>, issuer: Name, serial: nat,
                               send: (HttpMethod, Messages.MessageData) -> Result<State, Exception>,
                               next: Result<seq<Cert>, Exception>)
    requires cert !in st.verified && c.handler(cert) == Rejected
    ensures GetRevocationList(c, st, Ok(cert), hasDistributionPoints, fetch, ca2, issuer, serial, send)
         == QueryStep(Err(Io("CA certificate fingerprint could not be verified.")), st)
    ensures GetCertificate(c, st, Ok(cert), fetch, ca2, serial, send)
         == QueryStep(Err(Io("CA certificate fingerprint could not be verified.")), st)
    ensures fetch.Ok? && IsRolloverSupported(fetch.value) ==>
      var s := GetRolloverCertificate(c, st, fetch, Ok(cert), next);
      s.result == Err(Io("CA certificate fingerprint could not be verified.")) && cert !in s.state.verified
  {
  }
}
