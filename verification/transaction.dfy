/** `EnrolmentTransaction`: a PKCSReq sent once and then polled with
    GetCertInitial, each reply validated against the request and against the
    registry of server nonces seen so far. The registry is process-wide
    state in the source; here it is threaded through every call as a value. */
module Enrolment {
  import opened Wrappers
  import opened Asn1
  import opened X509
  import opened FailInfos
  import opened Exceptions
  import opened IssuerAndSubjects
  import opened Messages

  /** Every response senderNonce accepted so far. */
  type NonceRegistry = set<Nonce>

  /** The outcome of an exchange. */
  datatype State =
    | CertIssued(certs: seq<Cert>, crls: seq<Crl>)
    | CertReqPending
    | CertFailed(failInfo: Option<FailInfo>)

  /** `requestNonce` is the nonce drawn once by the constructor for the
      PKCSReq; `state` is None until the first exchange completes. */
  datatype EnrolmentTransaction = EnrolmentTransaction(
    transId: TransactionId,
    requestNonce: Nonce,
    csr: Csr,
    issuer: Option<Cert>,
    state: Option<State>)

  /** The PKCSReq fixed at construction. */
  function Request(tx: EnrolmentTransaction): (q: PkiRequest)
    ensures q.messageType == PKCSReq && q.transactionId == tx.transId
    ensures q.messageData == CsrData(tx.csr) && q.senderNonce == tx.requestNonce
  {
    PkcsReq(tx.transId, tx.requestNonce, tx.csr)
  }

  /** The constructor. The transaction id is derived from the CSR's public
      key (`idOf` answers None where reading the key throws); `nonce` is the
      nonce drawn for the PKCSReq. */
  function New(csr: Csr, idOf: PublicKey -> Option<TransactionId>, nonce: Nonce): (r: Result<EnrolmentTransaction, Exception>)
    ensures r.Ok? <==> idOf(csr.publicKey).Some?
    ensures r.Ok? ==> r.value.transId == idOf(csr.publicKey).value
    ensures r.Ok? ==> r.value.csr == csr && r.value.requestNonce == nonce
    ensures r.Ok? ==> r.value.issuer == None && r.value.state == None
    ensures r.Err? ==> r.error.Transaction?
  {
    match idOf(csr.publicKey)
    case None => Err(Transaction("InvalidKeySpecException"))
    case Some(id) => Ok(EnrolmentTransaction(id, nonce, csr, None, None))
  }

  /** Two enrolments of requests with the same public key share a
      transaction id, whatever nonces they draw. */
  lemma SameKeySameId(csr1: Csr, csr2: Csr, idOf: PublicKey -> Option<TransactionId>, n1: Nonce, n2: Nonce)
    requires csr1.publicKey == csr2.publicKey
    ensures New(csr1, idOf, n1).Ok? <==> New(csr2, idOf, n2).Ok?
    ensures New(csr1, idOf, n1).Ok? ==> New(csr1, idOf, n1).value.transId == New(csr2, idOf, n2).value.transId
  {
  }

  function GetId(tx: EnrolmentTransaction): (id: TransactionId)
    ensures id == Request(tx).transactionId
  {
    tx.transId
  }

  function SetIssuer(tx: EnrolmentTransaction, issuer: Cert): (r: EnrolmentTransaction)
    ensures r.issuer == Some(issuer)
    ensures r.transId == tx.transId && r.requestNonce == tx.requestNonce && r.csr == tx.csr && r.state == tx.state
  {
    tx.(issuer := Some(issuer))
  }

  /** `validateExchange`: the transaction ids must agree, the reply must echo
      the request's nonce, and a reply nonce, when present, must be new; a
      new one is recorded. */
  function ValidateExchange(registry: NonceRegistry, req: PkiRequest, res: PkiResponse): (r: Result<NonceRegistry, Exception>)
    ensures res.transactionId != req.transactionId ==> r == Err(Transaction("Transaction ID Mismatch"))
    ensures res.transactionId == req.transactionId && res.recipientNonce.None? ==> r.Err? && r.error.NullPointer?
    ensures res.transactionId == req.transactionId && res.recipientNonce.Some? && res.recipientNonce.value != req.senderNonce ==>
      r == Err(InvalidNonce("Response recipient nonce and request sender nonce are not equal"))
    ensures r.Ok? <==> (res.transactionId == req.transactionId && res.recipientNonce == Some(req.senderNonce)
                        && (res.senderNonce.None? || res.senderNonce.value !in registry))
    ensures r.Ok? && res.senderNonce.None? ==> r.value == registry
    ensures r.Ok? && res.senderNonce.Some? ==> r.value == registry + {res.senderNonce.value}
    ensures res.transactionId == req.transactionId && res.recipientNonce == Some(req.senderNonce)
            && res.senderNonce.Some? && res.senderNonce.value in registry ==>
      r == Err(InvalidNonce("This nonce has been encountered before.  Possible replay attack?"))
  {
    if res.transactionId != req.transactionId then Err(Transaction("Transaction ID Mismatch"))
    else if res.recipientNonce.None? then Err(NullPointer("recipientNonce"))
    else if res.recipientNonce.value != req.senderNonce then
      Err(InvalidNonce("Response recipient nonce and request sender nonce are not equal"))
    else if res.senderNonce.None? then Ok(registry)
    else if res.senderNonce.value in registry then
      Err(InvalidNonce("This nonce has been encountered before.  Possible replay attack?"))
    else Ok(registry + {res.senderNonce.value})
  }

  /** Accepting a reply only ever adds to the registry. */
  lemma RegistryGrows(registry: NonceRegistry, req: PkiRequest, res: PkiResponse)
    requires ValidateExchange(registry, req, res).Ok?
    ensures registry <= ValidateExchange(registry, req, res).value
  {
  }

  /** Once a reply nonce is accepted, any later reply carrying the same
      nonce is rejected as a replay, whatever request it answers. */
  lemma ReplayRejected(registry: NonceRegistry, req1: PkiRequest, res1: PkiResponse, req2: PkiRequest, res2: PkiResponse)
    requires ValidateExchange(registry, req1, res1).Ok?
    requires res1.senderNonce.Some? && res2.senderNonce == res1.senderNonce
    ensures ValidateExchange(ValidateExchange(registry, req1, res1).value, req2, res2).Err?
  {
  }

  /** A reply built by the CertRep factories for a request is accepted as
      long as the responder's nonce is new, and the nonce is then recorded. */
  lemma FactoryResponseAccepted(registry: NonceRegistry, req: PkiRequest, nextNonce: Nonce)
    requires nextNonce !in registry
    ensures ValidateExchange(registry, req, CreatePendingResponse(req, nextNonce)) == Ok(registry + {nextNonce})
  {
  }

  /** The transport pipeline an exchange runs through. `encode` and `decode`
      answer None where the encoder or decoder throws; `send` stands for the
      transport call, whose failures pass through unchanged. */
  datatype Channel = Channel(
    encode: PkiMessage -> Option<Bytes>,
    send: Bytes -> Result<Bytes, Exception>,
    decode: Bytes -> Option<PkiMessage>)

  /** The response bundle. A SUCCESS reply without a certificate bundle has
      nothing to extract. */
  function ExtractCertStore(res: PkiResponse): (r: Result<State, Exception>)
    ensures r.Ok? <==> res.messageData.Some? && res.messageData.value.SignedCerts?
    ensures r.Ok? ==> r.value == CertIssued(res.messageData.value.certs, res.messageData.value.crls)
  {
    match res.messageData
    case Some(SignedCerts(certs, crls)) => Ok(CertIssued(certs, crls))
    case _ => Err(Transaction("no certificate bundle"))
  }

  /** One round trip: encode, send, decode, cast to CertRep, validate. */
  function Exchange(registry: NonceRegistry, req: PkiRequest, ch: Channel): (r: Result<(PkiResponse, NonceRegistry), Exception>)
    ensures ch.encode(RequestMessage(req)).None? ==> r.Err? && r.error.Transaction?
    ensures r.Ok? ==> ValidateExchange(registry, req, r.value.0) == Ok(r.value.1)
    ensures r.Ok? ==> ch.encode(RequestMessage(req)).Some?
                      && ch.send(ch.encode(RequestMessage(req)).value).Ok?
                      && ch.decode(ch.send(ch.encode(RequestMessage(req)).value).value) == Some(ResponseMessage(r.value.0))
    ensures r.Err? && ch.encode(RequestMessage(req)).Some? && ch.send(ch.encode(RequestMessage(req)).value).Ok? ==>
      match ch.decode(ch.send(ch.encode(RequestMessage(req)).value).value)
      case None => r.error.Transaction?
      case Some(RequestMessage(_)) => r.error.ClassCast?
      case Some(ResponseMessage(res)) => Err(r.error) == ValidateExchange(registry, req, res)
  {
    match ch.encode(RequestMessage(req))
    case None => Err(Transaction("MessageEncodingException"))
    case Some(bytes) =>
      var reply :- ch.send(bytes);
      match ch.decode(reply)
      case None => Err(Transaction("MessageDecodingException"))
      case Some(RequestMessage(_)) => Err(ClassCast)
      case Some(ResponseMessage(res)) =>
        var registry' :- ValidateExchange(registry, req, res);
        Ok((res, registry'))
  }

  /** The state a validated reply moves the transaction to. */
  function Outcome(res: PkiResponse): (r: Result<State, Exception>)
    ensures res.pkiStatus == PkiStatus.Failure ==> r == Ok(CertFailed(res.failInfo))
    ensures res.pkiStatus == PkiStatus.Pending ==> r == Ok(CertReqPending)
    ensures res.pkiStatus == PkiStatus.Success ==> r == ExtractCertStore(res)
    ensures r.Ok? ==> (r.value.CertIssued? <==> res.pkiStatus == PkiStatus.Success)
  {
    match res.pkiStatus
    case Failure => Ok(CertFailed(res.failInfo))
    case Success => ExtractCertStore(res)
    case Pending => Ok(CertReqPending)
  }

  /** What a `send` or `poll` leaves behind: its result, the transaction and
      the nonce registry. */
  datatype Step = Step(result: Result<State, Exception>, tx: EnrolmentTransaction, registry: NonceRegistry)

  /** Run an exchange for `req` and record its outcome. A failure before
      validation leaves everything unchanged; a reply that validated has had
      its nonce recorded even if its certificate bundle cannot be read. */
  function Run(tx: EnrolmentTransaction, registry: NonceRegistry, req: PkiRequest, ch: Channel): (s: Step)
    ensures Exchange(registry, req, ch).Err? ==>
      s == Step(Err(Exchange(registry, req, ch).error), tx, registry)
    ensures Exchange(registry, req, ch).Ok? ==>
      s.registry == Exchange(registry, req, ch).value.1
      && s.result == Outcome(Exchange(registry, req, ch).value.0)
    ensures s.result.Ok? ==> s.tx == tx.(state := Some(s.result.value))
    ensures s.result.Err? ==> s.tx == tx
    ensures registry <= s.registry
  {
    match Exchange(registry, req, ch)
    case Err(e) => Step(Err(e), tx, registry)
    case Ok((res, registry')) =>
      RegistryGrows(registry, req, res);
      match Outcome(res)
      case Err(e) => Step(Err(e), tx, registry')
      case Ok(state) => Step(Ok(state), tx.(state := Some(state)), registry')
  }

  /** `send`: exchange the PKCSReq fixed at construction. */
  function Send(tx: EnrolmentTransaction, registry: NonceRegistry, ch: Channel): (s: Step)
    ensures s.tx.transId == tx.transId && s.tx.csr == tx.csr && s.tx.issuer == tx.issuer
    ensures Exchange(registry, Request(tx), ch).Ok? ==>
      s.result == Outcome(Exchange(registry, Request(tx), ch).value.0)
    ensures s.result.Err? ==> s.tx == tx
    ensures s.result.Ok? ==> s.tx.state == Some(s.result.value)
  {
    Run(tx, registry, Request(tx), ch)
  }

  /** The GetCertInitial a poll sends: same transaction id, the issuer's
      subject and the CSR's subject, and a freshly drawn nonce. */
  function PollRequest(tx: EnrolmentTransaction, nonce: Nonce): (r: Result<PkiRequest, Exception>)
    ensures r.Ok? <==> tx.issuer.Some?
    ensures r.Err? ==> r.error.NullPointer?
    ensures r.Ok? ==> r.value.messageType == GetCertInitial && r.value.transactionId == tx.transId
    ensures r.Ok? ==> r.value.messageData == IssuerSubject(IssuerAndSubject(tx.issuer.value.subject, tx.csr.subject))
    ensures r.Ok? ==> r.value.senderNonce == nonce
  {
    match tx.issuer
    case None => Err(NullPointer("issuer"))
    case Some(issuer) => Ok(GetCertInitialRequest(tx.transId, nonce, IssuerAndSubject(issuer.subject, tx.csr.subject)))
  }

  /** `poll`: exchange a GetCertInitial built with the nonce `nonce`. Without
      an issuer nothing is sent. */
  function Poll(tx: EnrolmentTransaction, registry: NonceRegistry, nonce: Nonce, ch: Channel): (s: Step)
    ensures tx.issuer.None? ==> s.result.Err? && s.result.error.NullPointer? && s.tx == tx && s.registry == registry
    ensures tx.issuer.Some? ==> s == Run(tx, registry, PollRequest(tx, nonce).value, ch)
    ensures s.tx.transId == tx.transId && s.tx.csr == tx.csr && s.tx.issuer == tx.issuer
    ensures registry <= s.registry
  {
    match PollRequest(tx, nonce)
    case Err(e) => Step(Err(e), tx, registry)
    case Ok(req) => Run(tx, registry, req, ch)
  }

  /** The usual lifecycle: a PENDING reply to the enrolment, then a SUCCESS
      reply to a poll, leaves the transaction holding the issued bundle, and
      both reply nonces on record. */
  lemma PendingThenIssued(tx: EnrolmentTransaction, registry: NonceRegistry, issuer: Cert, pollNonce: Nonce,
                          n1: Nonce, n2: Nonce, certs: seq<Cert>, crls: seq<Crl>, ch: Channel)
    requires n1 != n2 && n1 !in registry && n2 !in registry
    requires ch.encode(RequestMessage(Request(tx))).Some?
    requires ch.send(ch.encode(RequestMessage(Request(tx))).value).Ok?
    requires ch.decode(ch.send(ch.encode(RequestMessage(Request(tx))).value).value)
          == Some(ResponseMessage(CreatePendingResponse(Request(tx), n1)))
    requires var pollReq := PollRequest(SetIssuer(tx, issuer), pollNonce).value;
             && ch.encode(RequestMessage(pollReq)).Some?
             && ch.send(ch.encode(RequestMessage(pollReq)).value).Ok?
             && ch.decode(ch.send(ch.encode(RequestMessage(pollReq)).value).value)
                == Some(ResponseMessage(CreateSuccessResponse(pollReq, n2, SignedCerts(certs, crls))))
    ensures var s1 := Send(tx, registry, ch);
            && s1.result == Ok(CertReqPending)
            && var s2 := Poll(SetIssuer(s1.tx, issuer), s1.registry, pollNonce, ch);
            && s2.result == Ok(CertIssued(certs, crls))
            && s2.tx.state == Some(CertIssued(certs, crls))
            && s2.registry == registry + {n1, n2}
  {
    var s1 := Send(tx, registry, ch);
    assert Exchange(registry, Request(tx), ch) == Ok((CreatePendingResponse(Request(tx), n1), registry + {n1}));
    assert s1.tx == tx.(state := Some(CertReqPending));
    var tx1 := SetIssuer(s1.tx, issuer);
    assert PollRequest(tx1, pollNonce) == PollRequest(SetIssuer(tx, issuer), pollNonce);
    var pollReq := PollRequest(tx1, pollNonce).value;
    var res := CreateSuccessResponse(pollReq, n2, SignedCerts(certs, crls));
    assert Exchange(registry + {n1}, pollReq, ch) == Ok((res, registry + {n1} + {n2}));
  }
}
