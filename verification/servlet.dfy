/** `ScepServlet.service`: resolves the operation, checks the HTTP method
    it may use, and answers GetCACaps, GetCACert, GetNextCACert and
    PKIOperation. The CA behaviour (the servlet's abstract hooks) and the
    CMS and Base64 codecs are passed in. */
module Servlet {
  import opened Wrappers
  import opened Asn1
  import opened X509
  import opened FailInfos
  import opened Exceptions
  import opened IssuerAndSubjects
  import opened Messages

  const Get: string := "GET"
  const Post: string := "POST"
  const MessageParam: string := "message"
  const OperationParam: string := "operation"

  const BadRequest: nat := 400
  const MethodNotAllowed: nat := 405
  const NotImplemented: nat := 501
  const Ok200: nat := 200

  datatype HttpRequest = HttpRequest(verb: string, params: map<string, string>, body: Bytes)

  /** A response: status, headers, the text written through the writer or
      passed to `sendError`, and the bytes written to the output stream. */
  datatype HttpResponse = HttpResponse(status: nat, headers: map<string, string>, text: string, bytes: Bytes)

  datatype Operation = GetCACaps | GetCACert | GetNextCACert | PKIOperation

  /** `Operation.valueOf`: the constant whose name is exactly `name`. */
  function OperationNamed(name: string): (r: Option<Operation>)
    ensures r == Some(GetCACaps) <==> name == "GetCACaps"
    ensures r == Some(GetCACert) <==> name == "GetCACert"
    ensures r == Some(GetNextCACert) <==> name == "GetNextCACert"
    ensures r == Some(PKIOperation) <==> name == "PKIOperation"
  {
    if name == "GetCACaps" then Some(GetCACaps)
    else if name == "GetCACert" then Some(GetCACert)
    else if name == "GetNextCACert" then Some(GetNextCACert)
    else if name == "PKIOperation" then Some(PKIOperation)
    else None
  }

  /** `getOperation`: None when the parameter is absent; an unknown name
      makes `valueOf` throw IllegalArgumentException. */
  function GetOperation(req: HttpRequest): (r: Result<Option<Operation>, Exception>)
    ensures OperationParam !in req.params ==> r == Ok(None)
    ensures OperationParam in req.params ==>
      (r.Ok? <==> OperationNamed(req.params[OperationParam]).Some?)
    ensures OperationParam in req.params && r.Ok? ==> r.value == OperationNamed(req.params[OperationParam])
    ensures r.Err? ==> r.error.IllegalArgument?
  {
    if OperationParam !in req.params then Ok(None)
    else match OperationNamed(req.params[OperationParam])
      case None => Err(IllegalArgument("No enum constant"))
      case Some(op) => Ok(Some(op))
  }

  /** `getMessageBytes`: the body of a POST; on any other method, the
      Base64-decoded message parameter of a PKIOperation (empty when the
      parameter is empty) and nothing for other operations. It resolves the
      operation itself, so an unknown operation throws here. */
  function GetMessageBytes(req: HttpRequest, base64: string -> Option<Bytes>): (r: Result<Bytes, Exception>)
    ensures req.verb == Post ==> r == Ok(req.body)
    ensures req.verb != Post && GetOperation(req).Err? ==> r == Err(GetOperation(req).error)
    ensures req.verb != Post && GetOperation(req).Ok? && GetOperation(req).value != Some(PKIOperation) ==> r == Ok([])
    ensures req.verb != Post && GetOperation(req) == Ok(Some(PKIOperation)) ==>
      if MessageParam !in req.params then r.Err? && r.error.NullPointer?
      else if req.params[MessageParam] == "" then r == Ok([])
      else r.Ok? <==> base64(req.params[MessageParam]).Some?
  {
    if req.verb == Post then Ok(req.body)
    else
      var op :- GetOperation(req);
      if op == Some(PKIOperation) then
        if MessageParam !in req.params then Err(NullPointer("message"))
        else if req.params[MessageParam] == "" then Ok([])
        else match base64(req.params[MessageParam])
          case None => Err(Runtime("DecoderException"))
          case Some(bytes) => Ok(bytes)
      else Ok([])
  }

  /** The value of the optional `message` parameter (the CA identifier). */
  function Identifier(req: HttpRequest): Option<string> {
    if MessageParam in req.params then Some(req.params[MessageParam]) else None
  }

  /** The servlet's abstract CA hooks. The fallible ones answer Err(f) where
      they throw OperationFailureException with failInfo f. */
  datatype CaHooks = CaHooks(
    capabilities: Option<string> -> seq<string>,
    caCertificate: Option<string> -> seq<Cert>,
    nextCaCertificate: Option<string> -> seq<Cert>,
    getCert: (Name, nat) -> Result<seq<Cert>, FailInfo>,
    getCertInitial: (Name, Name) -> Result<seq<Cert>, FailInfo>,
    getCrl: (Name, nat) -> Result<Crl, FailInfo>,
    enroll: Csr -> Result<seq<Cert>, FailInfo>)

  /** The CMS and DER work around a PKIOperation: `unwrap` parses the signed
      request, takes its first certificate and decodes the pkiMessage;
      `wrap` envelopes for and signs a CertRep; the others encode
      certificates. */
  datatype Codecs = Codecs(
    base64: string -> Option<Bytes>,
    certDer: Cert -> Bytes,
    degenerate: seq<Cert> -> Bytes,
    signedDegenerate: seq<Cert> -> Bytes,
    unwrap: Bytes -> Result<(Cert, PkiMessage), Exception>,
    wrap: (Cert, PkiResponse) -> Result<Bytes, Exception>)

  /** The reply to an issued list from PKCSReq or GetCertInitial: PENDING
      when empty, SUCCESS with the certificates otherwise. */
  function IssuedOrPending(req: PkiRequest, nextNonce: Nonce, issued: Result<seq<Cert>, FailInfo>): (r: PkiResponse)
    ensures Answers(r, req) && r.senderNonce == Some(nextNonce)
    ensures issued.Err? ==> r.pkiStatus == PkiStatus.Failure && r.failInfo == Some(issued.error)
    ensures issued.Ok? && |issued.value| == 0 ==> r.pkiStatus == PkiStatus.Pending
    ensures issued.Ok? && |issued.value| > 0 ==>
      r.pkiStatus == PkiStatus.Success && r.messageData == Some(SignedCerts(issued.value, []))
  {
    match issued
    case Err(f) => CreateFailureResponse(req, nextNonce, f)
    case Ok(certs) =>
      if |certs| == 0 then CreatePendingResponse(req, nextNonce)
      else CreateSuccessResponse(req, nextNonce, SignedCerts(certs, []))
  }

  /** The CertRep for a decoded pkiMessage, chosen by its message type. A
      payload of the wrong shape for its type fails the cast. A decoded
      response is always a CertRep, whose type CERT_REP none of the branches
      handles, so it is refused like a request tagged CERT_REP. */
  function CertRepFor(msg: PkiMessage, nextNonce: Nonce, hooks: CaHooks): (r: Result<PkiResponse, Exception>)
    ensures msg.ResponseMessage? || msg.request.messageType == CertRep ==>
      r == Err(Servlet("Unknown Message for Operation"))
    ensures r.Ok? ==> msg.RequestMessage? && Answers(r.value, msg.request) && r.value.senderNonce == Some(nextNonce)
    ensures r.Ok? && r.value.pkiStatus == PkiStatus.Pending ==>
      msg.request.messageType in {PKCSReq, GetCertInitial}
    ensures r.Ok? && msg.request.messageType == GetCert ==> r.value.pkiStatus != PkiStatus.Pending
    ensures r.Ok? && msg.request.messageType == GetCRL && r.value.pkiStatus == PkiStatus.Success ==>
      r.value.messageData.Some? && r.value.messageData.value.SignedCerts?
      && |r.value.messageData.value.crls| == 1 && r.value.messageData.value.certs == []
  {
    match msg
    case ResponseMessage(_) => Err(Servlet("Unknown Message for Operation"))
    case RequestMessage(req) =>
      match req.messageType
      case GetCert =>
        (match req.messageData
         case IssuerAndSerial(issuer, serial) =>
           (match hooks.getCert(issuer, serial)
            case Err(f) => Ok(CreateFailureResponse(req, nextNonce, f))
            case Ok(certs) => Ok(CreateSuccessResponse(req, nextNonce, SignedCerts(certs, []))))
         case _ => Err(ClassCast))
      case GetCertInitial =>
        (match req.messageData
         case IssuerSubject(ias) => Ok(IssuedOrPending(req, nextNonce, hooks.getCertInitial(ias.issuer, ias.subject)))
         case _ => Err(ClassCast))
      case GetCRL =>
        (match req.messageData
         case IssuerAndSerial(issuer, serial) =>
           (match hooks.getCrl(issuer, serial)
            case Err(f) => Ok(CreateFailureResponse(req, nextNonce, f))
            case Ok(crl) => Ok(CreateSuccessResponse(req, nextNonce, SignedCerts([], [crl]))))
         case _ => Err(ClassCast))
      case PKCSReq =>
        (match req.messageData
         case CsrData(csr) => Ok(IssuedOrPending(req, nextNonce, hooks.enroll(csr)))
         case _ => Err(ClassCast))
      case CertRep => Err(Servlet("Unknown Message for Operation"))
  }

  /** A CA hook's OperationFailureException becomes a FAILURE CertRep that
      carries its failInfo, whatever the message type. */
  lemma OperationFailureGivesFailure(req: PkiRequest, nextNonce: Nonce, hooks: CaHooks, f: FailInfo)
    requires req.messageType == PKCSReq && req.messageData.CsrData? && hooks.enroll(req.messageData.csr) == Err(f)
    ensures CertRepFor(RequestMessage(req), nextNonce, hooks)
         == Ok(CreateFailureResponse(req, nextNonce, f))
    ensures CertRepFor(RequestMessage(req), nextNonce, hooks).value.failInfo == Some(f)
  {
  }

  /** The GetCACaps body: each capability name followed by a newline. */
  function CapsText(names: seq<string>): (t: string)
    ensures |t| >= |names|
  {
    if |names| == 0 then "" else names[0] + "\n" + CapsText(names[1..])
  }

  /** Index of the first newline in `s`, or |s| when there is none. */
  function LineEnd(s: string): (i: nat)
    ensures i <= |s| && '\n' !in s[..i]
    ensures i < |s| ==> s[i] == '\n'
  {
    if |s| == 0 then 0
    else if s[0] == '\n' then 0
    else
      assert s[..1 + LineEnd(s[1..])] == [s[0]] + s[1..][..LineEnd(s[1..])];
      1 + LineEnd(s[1..])
  }

  /** Newline-terminated lines, the way a client reads the GetCACaps body. */
  function Lines(s: string): seq<string>
    decreases |s|
  {
    if |s| == 0 then []
    else
      var i := LineEnd(s);
      if i == |s| then [s] else [s[..i]] + Lines(s[i + 1..])
  }

  lemma LineEndOfLine(a: string, rest: string)
    requires '\n' !in a
    ensures LineEnd(a + "\n" + rest) == |a|
  {
    var s := a + "\n" + rest;
    assert s[|a|] == '\n';
  }

  /** Reading the GetCACaps body back line by line recovers the capability
      names, as long as none of them contains a newline. */
  lemma {:induction false} CapsTextLines(names: seq<string>)
    requires forall k :: 0 <= k < |names| ==> '\n' !in names[k]
    ensures Lines(CapsText(names)) == names
  {
    if |names| > 0 {
      var s := CapsText(names);
      assert s == names[0] + "\n" + CapsText(names[1..]);
      LineEndOfLine(names[0], CapsText(names[1..]));
      assert s[..|names[0]|] == names[0];
      assert s[|names[0]| + 1..] == CapsText(names[1..]);
      CapsTextLines(names[1..]);
    }
  }

  predicate HasContentType(resp: HttpResponse, contentType: string) {
    "Content-Type" in resp.headers && resp.headers["Content-Type"] == contentType
  }

  function TextResponse(status: nat, text: string): HttpResponse {
    HttpResponse(status, map[], text, [])
  }

  function NotAllowed(allow: string): HttpResponse {
    HttpResponse(MethodNotAllowed, map["Allow" := allow], "", [])
  }

  /** Whether the HTTP method `verb` may carry `op`: PKIOperation over GET or POST, every
      other operation over GET only. */
  predicate MethodAllowed(op: Operation, verb: string) {
    if op == PKIOperation then verb == Get || verb == Post else verb == Get
  }

  /** The 405 answer for a method `op` may not use. */
  function Allow(op: Operation): (allow: string)
    ensures allow == (if op == PKIOperation then "GET, POST" else "GET")
  {
    if op == PKIOperation then Get + ", " + Post else Get
  }

  /** Answer a recognised operation sent with an allowed method. */
  function Dispatch(op: Operation, req: HttpRequest, body: Bytes, hooks: CaHooks, codecs: Codecs, nextNonce: Nonce): (r: Result<HttpResponse, Exception>)
    ensures r.Ok? ==> r.value.status in {Ok200, NotImplemented}
    ensures op == GetCACaps ==> r.Ok? && HasContentType(r.value, "text/plain")
                                && r.value.text == CapsText(hooks.capabilities(Identifier(req)))
    ensures op == GetCACert ==>
      r.Ok? && r.value.status == Ok200
      && HasContentType(r.value, if |hooks.caCertificate(Identifier(req))| == 1 then "application/x-x509-ca-cert"
                                 else "application/x-x509-ca-ra-cert")
    ensures op == GetCACert && |hooks.caCertificate(Identifier(req))| == 1 ==>
      r.value.bytes == codecs.certDer(hooks.caCertificate(Identifier(req))[0])
    ensures op == GetNextCACert ==>
      r.Ok? && HasContentType(r.value, "application/x-x509-next-ca-cert")
      && (r.value.status == NotImplemented <==> |hooks.nextCaCertificate(Identifier(req))| == 0)
    ensures op == PKIOperation && r.Ok? ==> r.value.status == Ok200 && HasContentType(r.value, "application/x-pki-message")
  {
    match op
    case GetCACaps =>
      Ok(HttpResponse(Ok200, map["Content-Type" := "text/plain"], CapsText(hooks.capabilities(Identifier(req))), []))
    case GetCACert =>
      var certs := hooks.caCertificate(Identifier(req));
      if |certs| == 1 then
        Ok(HttpResponse(Ok200, map["Content-Type" := "application/x-x509-ca-cert"], "", codecs.certDer(certs[0])))
      else
        Ok(HttpResponse(Ok200, map["Content-Type" := "application/x-x509-ca-ra-cert"], "", codecs.degenerate(certs)))
    case GetNextCACert =>
      var certs := hooks.nextCaCertificate(Identifier(req));
      var headers := map["Content-Type" := "application/x-x509-next-ca-cert"];
      if |certs| == 0 then Ok(HttpResponse(NotImplemented, headers, "GetNextCACert Not Supported", []))
      else Ok(HttpResponse(Ok200, headers, "", codecs.signedDegenerate(certs)))
    case PKIOperation =>
      var (reqCert, msg) :- codecs.unwrap(body);
      var certRep :- CertRepFor(msg, nextNonce, hooks);
      var bytes :- codecs.wrap(reqCert, certRep);
      Ok(HttpResponse(Ok200, map["Content-Type" := "application/x-pki-message"], "", bytes))
  }

  /** `service` as written: the message bytes are read first, then the
      operation is resolved and the method checked. */
  function Service(req: HttpRequest, hooks: CaHooks, codecs: Codecs, nextNonce: Nonce): (r: Result<HttpResponse, Exception>)
    ensures GetMessageBytes(req, codecs.base64).Err? ==> r == Err(GetMessageBytes(req, codecs.base64).error)
    ensures GetMessageBytes(req, codecs.base64).Ok? && GetOperation(req) == Ok(None) ==>
      r == Ok(TextResponse(BadRequest, "Missing \"operation\" parameter."))
    ensures GetMessageBytes(req, codecs.base64).Ok? && GetOperation(req).Err? ==>
      r == Ok(TextResponse(BadRequest, "Invalid \"operation\" parameter."))
    ensures GetMessageBytes(req, codecs.base64).Ok? && GetOperation(req).Ok? && GetOperation(req).value.Some?
            && !MethodAllowed(GetOperation(req).value.value, req.verb) ==>
      r == Ok(NotAllowed(Allow(GetOperation(req).value.value)))
    ensures r.Ok? && r.value.status == MethodNotAllowed ==>
      "Allow" in r.value.headers && r.value.headers["Allow"] in {"GET, POST", "GET"}
  {
    var body :- GetMessageBytes(req, codecs.base64);
    Respond(req, body, hooks, codecs, nextNonce)
  }

  /** Everything after the message bytes are in hand. */
  function Respond(req: HttpRequest, body: Bytes, hooks: CaHooks, codecs: Codecs, nextNonce: Nonce): (r: Result<HttpResponse, Exception>)
    ensures GetOperation(req) == Ok(None) ==> r == Ok(TextResponse(BadRequest, "Missing \"operation\" parameter."))
    ensures GetOperation(req).Err? ==> r == Ok(TextResponse(BadRequest, "Invalid \"operation\" parameter."))
    ensures GetOperation(req).Ok? && GetOperation(req).value.Some? && !MethodAllowed(GetOperation(req).value.value, req.verb) ==>
      r == Ok(NotAllowed(Allow(GetOperation(req).value.value)))
    ensures GetOperation(req).Ok? && GetOperation(req).value.Some? && MethodAllowed(GetOperation(req).value.value, req.verb) ==>
      r == Dispatch(GetOperation(req).value.value, req, body, hooks, codecs, nextNonce)
    ensures r.Ok? && r.value.status == MethodNotAllowed ==>
      "Allow" in r.value.headers && r.value.headers["Allow"] in {"GET, POST", "GET"}
  {
    match GetOperation(req)
    case Err(_) => Ok(TextResponse(BadRequest, "Invalid \"operation\" parameter."))
    case Ok(None) => Ok(TextResponse(BadRequest, "Missing \"operation\" parameter."))
    case Ok(Some(op)) =>
      if !MethodAllowed(op, req.verb) then Ok(NotAllowed(Allow(op)))
      else Dispatch(op, req, body, hooks, codecs, nextNonce)
  }

  /** On any method but POST, an unknown operation name escapes from
      `getMessageBytes` as IllegalArgumentException, so the 400 "Invalid
      operation" answer is never produced for it. */
  lemma InvalidOperationOnGetEscapes(req: HttpRequest, hooks: CaHooks, codecs: Codecs, nextNonce: Nonce)
    requires req.verb != Post
    requires OperationParam in req.params && OperationNamed(req.params[OperationParam]).None?
    ensures Service(req, hooks, codecs, nextNonce).Err?
    ensures Service(req, hooks, codecs, nextNonce).error.IllegalArgument?
    ensures Service(req, hooks, codecs, nextNonce) != ServiceIntended(req, hooks, codecs, nextNonce)
  {
  }

  /** The concrete request: GET with `operation=Bogus`. */
  lemma BogusOperationOnGet(hooks: CaHooks, codecs: Codecs, nextNonce: Nonce)
    ensures var req := HttpRequest(Get, map[OperationParam := "Bogus"], []);
            Service(req, hooks, codecs, nextNonce) == Err(IllegalArgument("No enum constant"))
  {
    var req := HttpRequest(Get, map[OperationParam := "Bogus"], []);
    assert OperationNamed("Bogus") == None;
    InvalidOperationOnGetEscapes(req, hooks, codecs, nextNonce);
  }

  /** The message bytes with an unknown operation treated as carrying no
      message, so that the operation check that follows reports it. */
  function MessageBytesIntended(req: HttpRequest, base64: string -> Option<Bytes>): (r: Result<Bytes, Exception>)
    ensures GetOperation(req).Ok? || req.verb == Post ==> r == GetMessageBytes(req, base64)
    ensures GetOperation(req).Err? ==> r.Ok?
  {
    if req.verb != Post && GetOperation(req).Err? then Ok([]) else GetMessageBytes(req, base64)
  }

  /** `service` as its handler for unrecognised operations intends. */
  function ServiceIntended(req: HttpRequest, hooks: CaHooks, codecs: Codecs, nextNonce: Nonce): (r: Result<HttpResponse, Exception>)
    ensures GetOperation(req).Err? ==> r == Ok(TextResponse(BadRequest, "Invalid \"operation\" parameter."))
    ensures GetOperation(req).Ok? ==> r == Service(req, hooks, codecs, nextNonce)
  {
    var body :- MessageBytesIntended(req, codecs.base64);
    Respond(req, body, hooks, codecs, nextNonce)
  }

  /** Under the intended behaviour every unknown operation name is answered
      with 400 "Invalid operation", whatever the method. */
  lemma InvalidOperationAnswered(req: HttpRequest, hooks: CaHooks, codecs: Codecs, nextNonce: Nonce)
    requires OperationParam in req.params && OperationNamed(req.params[OperationParam]).None?
    ensures ServiceIntended(req, hooks, codecs, nextNonce) == Ok(TextResponse(BadRequest, "Invalid \"operation\" parameter."))
  {
  }
}
