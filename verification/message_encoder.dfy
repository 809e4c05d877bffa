/** `PkiMessageEncoder.encode`: decides whether the messageData travels,
    serialises and envelopes it, and assembles the SignedData around it.
    The cryptographic and DER steps are collaborators passed in. */
module MessageEncoder {
  import opened Wrappers
  import opened Asn1
  import opened X509
  import opened FailInfos
  import opened Exceptions
  import opened Messages

  /** The pkiMessage attributes that travel as signed attributes. */
  datatype Attributes = Attributes(
    transactionId: TransactionId,
    messageType: MessageType,
    senderNonce: Option<Nonce>,
    recipientNonce: Option<Nonce>,
    pkiStatus: Option<PkiStatus>,
    failInfo: Option<FailInfo>)

  /** The signed attributes, as the attribute table is assumed to carry
      them: the message's own transaction id, type, nonces, status and
      failInfo. */
  function AttributesOf(m: PkiMessage): Attributes
  {
    match m
    case RequestMessage(q) => Attributes(q.transactionId, q.messageType, Some(q.senderNonce), None, None, None)
    case ResponseMessage(r) =>
      Attributes(r.transactionId, r.messageType, r.senderNonce, r.recipientNonce, Some(r.pkiStatus), r.failInfo)
  }

  /** The OID of the CMS `data` content type. */
  const DataContentType: Oid := "1.2.840.113549.1.7.1"

  /** The signature algorithm of every pkiMessage. */
  const SignatureAlgorithm: string := "SHA1withRSA"

  datatype PrivateKey = PrivateKey(algorithm: string, material: Bytes)

  /** The CMS SignedData the generator is asked to produce. */
  datatype SignedData = SignedData(
    contentType: Oid,
    content: Option<Bytes>,
    certificates: seq<Cert>,
    signer: Cert,
    signatureAlgorithm: string,
    signedAttributes: Attributes)

  datatype Encoded = Encoded(structure: SignedData, der: Bytes)

  /** The collaborators, each answering None where the Java call throws:
      the envelope encoder (IOException), `getEncoded()` of a CSR and of any
      other ASN.1 payload (IOException), the certificate store
      (CertificateEncodingException), the signer builder and the final
      generation and encoding. */
  datatype Collaborators = Collaborators(
    envelope: Bytes -> Option<Bytes>,
    csrEncoding: Csr -> Option<Bytes>,
    asn1Encoding: MessageData -> Option<Bytes>,
    certEncodable: Cert -> bool,
    signerBuilds: (PrivateKey, Cert) -> bool,
    generate: SignedData -> Option<Bytes>)

  /** Only a response whose status is not SUCCESS leaves the messageData out. */
  predicate HasMessageData(m: PkiMessage) {
    !(m.ResponseMessage? && m.response.pkiStatus != Success)
  }

  function PayloadOf(m: PkiMessage): Option<MessageData> {
    match m
    case RequestMessage(q) => Some(q.messageData)
    case ResponseMessage(r) => r.messageData
  }

  /** Serialise and envelope a payload. Raw bytes go to the envelope
      unchanged and an envelope failure escapes as the IOException it is;
      a CSR and any other ASN.1 object are DER-encoded first, inside a
      handler that turns every IOException into MessageEncodingException.
      A null payload is dereferenced. */
  function EnvelopePayload(data: Option<MessageData>, c: Collaborators): (r: Result<Bytes, Exception>)
    ensures data.None? ==> r.Err? && r.error.NullPointer?
    ensures data.Some? && data.value.RawBytes? ==>
      r == (match c.envelope(data.value.bytes) case Some(e) => Ok(e) case None => Err(Io("envelope")))
    ensures data.Some? && data.value.CsrData? && c.csrEncoding(data.value.csr).Some? ==>
      r == (match c.envelope(c.csrEncoding(data.value.csr).value)
            case Some(e) => Ok(e) case None => Err(MessageEncoding("IOException")))
    ensures data.Some? && !data.value.RawBytes? && !data.value.CsrData? && c.asn1Encoding(data.value).Some? ==>
      r == (match c.envelope(c.asn1Encoding(data.value).value)
            case Some(e) => Ok(e) case None => Err(MessageEncoding("IOException")))
    ensures data.Some? && !data.value.RawBytes? && r.Err? ==> r.error == MessageEncoding("IOException")
  {
    match data
    case None => Err(NullPointer("messageData"))
    case Some(RawBytes(b)) =>
      (match c.envelope(b) case Some(e) => Ok(e) case None => Err(Io("envelope")))
    case Some(CsrData(csr)) =>
      (match c.csrEncoding(csr)
       case None => Err(MessageEncoding("IOException"))
       case Some(der) =>
         match c.envelope(der) case Some(e) => Ok(e) case None => Err(MessageEncoding("IOException")))
    case Some(other) =>
      (match c.asn1Encoding(other)
       case None => Err(MessageEncoding("IOException"))
       case Some(der) =>
         match c.envelope(der) case Some(e) => Ok(e) case None => Err(MessageEncoding("IOException")))
  }

  /** `encode`: envelope the payload when the message carries one, then sign
      the message's attributes with SHA1withRSA under `senderKey`, attaching
      `senderCert` as the only certificate. */
  function Encode(m: PkiMessage, senderKey: PrivateKey, senderCert: Cert, c: Collaborators): (r: Result<Encoded, Exception>)
    ensures r.Ok? ==> r.value.structure.certificates == [senderCert] && r.value.structure.signer == senderCert
    ensures r.Ok? ==> r.value.structure.signedAttributes == AttributesOf(m)
    ensures r.Ok? ==> r.value.structure.signatureAlgorithm == SignatureAlgorithm
    ensures r.Ok? ==> r.value.structure.contentType == DataContentType
    ensures r.Ok? ==> c.generate(r.value.structure) == Some(r.value.der)
    ensures !HasMessageData(m) && r.Ok? ==> r.value.structure.content == None
    ensures HasMessageData(m) && r.Ok? ==> r.value.structure.content.Some? && Ok(r.value.structure.content.value) == EnvelopePayload(PayloadOf(m), c)
    ensures HasMessageData(m) && EnvelopePayload(PayloadOf(m), c).Err? ==> r == Err(EnvelopePayload(PayloadOf(m), c).error)
    ensures (!HasMessageData(m) || EnvelopePayload(PayloadOf(m), c).Ok?) && r.Err? ==> r.error.MessageEncoding?
  {
    var signable :- if HasMessageData(m) then
                      var ed :- EnvelopePayload(PayloadOf(m), c); Ok(Some(ed))
                    else Ok(None);
    if !c.certEncodable(senderCert) then Err(MessageEncoding("CertificateEncodingException"))
    else if !c.signerBuilds(senderKey, senderCert) then Err(MessageEncoding("signer"))
    else
      var sd := SignedData(DataContentType, signable, [senderCert], senderCert, SignatureAlgorithm, AttributesOf(m));
      match c.generate(sd)
      case None => Err(MessageEncoding("generate"))
      case Some(der) => Ok(Encoded(sd, der))
  }

  /** A response whose status is not SUCCESS is signed without content, and
      its messageData, whatever it holds, is never looked at. */
  lemma NonSuccessIgnoresPayload(r: PkiResponse, data: Option<MessageData>, senderKey: PrivateKey, senderCert: Cert, c: Collaborators)
    requires r.pkiStatus != Success
    ensures Encode(ResponseMessage(r), senderKey, senderCert, c)
         == Encode(ResponseMessage(r.(messageData := data)), senderKey, senderCert, c)
  {
  }

  /** With collaborators that never fail, a request is encoded with the
      envelope of its serialised payload as content. */
  lemma RequestContentIsEnvelope(q: PkiRequest, senderKey: PrivateKey, senderCert: Cert, c: Collaborators)
    requires q.messageData.CsrData? && c.csrEncoding(q.messageData.csr).Some?
    requires c.envelope(c.csrEncoding(q.messageData.csr).value).Some?
    requires c.certEncodable(senderCert) && c.signerBuilds(senderKey, senderCert)
    requires forall sd :: c.generate(sd).Some?
    ensures Encode(RequestMessage(q), senderKey, senderCert, c).Ok?
    ensures Encode(RequestMessage(q), senderKey, senderCert, c).value.structure.content
         == c.envelope(c.csrEncoding(q.messageData.csr).value)
  {
  }
}
