/** The SCEP pkiMessage as the core sees it once signing and enveloping are
    peeled off: the protocol attributes plus the messageData payload, and the
    CertRep response with its three shapes. */
module Messages {
  import opened Wrappers
  import opened Asn1
  import opened X509
  import opened FailInfos
  import opened IssuerAndSubjects

  /** Opaque correlation id shared by a request and all its polls. */
  type TransactionId = Bytes

  /** Opaque single-use random value. */
  type Nonce = Bytes

  datatype MessageType = PKCSReq | GetCertInitial | GetCert | GetCRL | CertRep

  datatype PkiStatus = Success | Failure | Pending

  /** The concrete payload shapes: raw bytes, a PKCS #10 request, an issuer
      and serial number, an issuer and subject, or a degenerate SignedData
      carrying certificates and CRLs. */
  datatype MessageData =
    | RawBytes(bytes: Bytes)
    | CsrData(csr: Csr)
    | IssuerAndSerial(issuerName: Name, serial: nat)
    | IssuerSubject(ias: IssuerAndSubject)
    | SignedCerts(certs: seq<Cert>, crls: seq<Crl>)

  /** A request: PKCSReq, GetCertInitial, GetCert or GetCRL. */
  datatype PkiRequest = PkiRequest(
    transactionId: TransactionId,
    messageType: MessageType,
    senderNonce: Nonce,
    messageData: MessageData)

  /** A response. Fields a peer may omit are optional (Java null). */
  datatype PkiResponse = PkiResponse(
    transactionId: TransactionId,
    messageType: MessageType,
    senderNonce: Option<Nonce>,
    recipientNonce: Option<Nonce>,
    pkiStatus: PkiStatus,
    messageData: Option<MessageData>,
    failInfo: Option<FailInfo>)

  datatype PkiMessage = RequestMessage(request: PkiRequest) | ResponseMessage(response: PkiResponse)

  function PkcsReq(transId: TransactionId, senderNonce: Nonce, csr: Csr): (r: PkiRequest)
    ensures r.transactionId == transId && r.senderNonce == senderNonce
    ensures r.messageType == PKCSReq && r.messageData == CsrData(csr)
  {
    PkiRequest(transId, PKCSReq, senderNonce, CsrData(csr))
  }

  function GetCertInitialRequest(transId: TransactionId, senderNonce: Nonce, ias: IssuerAndSubject): (r: PkiRequest)
    ensures r.transactionId == transId && r.senderNonce == senderNonce
    ensures r.messageType == GetCertInitial && r.messageData == IssuerSubject(ias)
  {
    PkiRequest(transId, GetCertInitial, senderNonce, IssuerSubject(ias))
  }

  /** The success constructor: status SUCCESS, the given messageData, no
      failInfo. */
  function SuccessRep(transId: TransactionId, senderNonce: Nonce, recipientNonce: Nonce, data: MessageData): (r: PkiResponse)
    ensures r.messageType == CertRep && r.pkiStatus == Success
    ensures r.messageData == Some(data) && r.failInfo == None
    ensures r.transactionId == transId && r.senderNonce == Some(senderNonce) && r.recipientNonce == Some(recipientNonce)
  {
    PkiResponse(transId, CertRep, Some(senderNonce), Some(recipientNonce), Success, Some(data), None)
  }

  /** The failure constructor: status FAILURE, no messageData, the given
      failInfo. */
  function FailureRep(transId: TransactionId, senderNonce: Nonce, recipientNonce: Nonce, failInfo: FailInfo): (r: PkiResponse)
    ensures r.messageType == CertRep && r.pkiStatus == Failure
    ensures r.messageData == None && r.failInfo == Some(failInfo)
    ensures r.transactionId == transId && r.senderNonce == Some(senderNonce) && r.recipientNonce == Some(recipientNonce)
  {
    PkiResponse(transId, CertRep, Some(senderNonce), Some(recipientNonce), Failure, None, Some(failInfo))
  }

  /** The pending constructor: status PENDING, neither messageData nor
      failInfo. */
  function PendingRep(transId: TransactionId, senderNonce: Nonce, recipientNonce: Nonce): (r: PkiResponse)
    ensures r.messageType == CertRep && r.pkiStatus == Pending
    ensures r.messageData == None && r.failInfo == None
    ensures r.transactionId == transId && r.senderNonce == Some(senderNonce) && r.recipientNonce == Some(recipientNonce)
  {
    PkiResponse(transId, CertRep, Some(senderNonce), Some(recipientNonce), Pending, None, None)
  }

  /** A CertRep answers `req` when it echoes the transaction id, carries the
      request's senderNonce as its recipientNonce, and has a senderNonce of
      its own. */
  predicate Answers(res: PkiResponse, req: PkiRequest) {
    && res.messageType == CertRep
    && res.transactionId == req.transactionId
    && res.recipientNonce == Some(req.senderNonce)
    && res.senderNonce.Some?
  }

  /** The three `createResponse` factories, with `nextNonce` standing for
      `Nonce.nextNonce()`. */
  function CreateSuccessResponse(req: PkiRequest, nextNonce: Nonce, data: MessageData): (r: PkiResponse)
    ensures Answers(r, req) && r.senderNonce == Some(nextNonce)
    ensures r.pkiStatus == Success && r.messageData == Some(data) && r.failInfo == None
  {
    SuccessRep(req.transactionId, nextNonce, req.senderNonce, data)
  }

  function CreateFailureResponse(req: PkiRequest, nextNonce: Nonce, failInfo: FailInfo): (r: PkiResponse)
    ensures Answers(r, req) && r.senderNonce == Some(nextNonce)
    ensures r.pkiStatus == Failure && r.messageData == None && r.failInfo == Some(failInfo)
  {
    FailureRep(req.transactionId, nextNonce, req.senderNonce, failInfo)
  }

  function CreatePendingResponse(req: PkiRequest, nextNonce: Nonce): (r: PkiResponse)
    ensures Answers(r, req) && r.senderNonce == Some(nextNonce)
    ensures r.pkiStatus == Pending && r.messageData == None && r.failInfo == None
  {
    PendingRep(req.transactionId, nextNonce, req.senderNonce)
  }
}
