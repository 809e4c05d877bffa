# jscep protocol core in Dafny

This project models the protocol decision logic of jscep, a Java library for the Simple Certificate Enrollment Protocol (SCEP, draft-nourse-scep-20). It covers both the client side and the server side. The modelled behaviour is the rules, validation and state handling around the signed and enveloped pkiMessage:

- the enrolment transaction: the send/poll state machine and the nonce replay registry;
- the choice of signing, encryption and issuer certificates, with its single-slot cache;
- capability negotiation;
- the `failInfo` code table;
- CertRep construction;
- the content decision of the pkiMessage encoder;
- the `IssuerAndSubject` ASN.1 structure;
- the algorithm dictionary;
- the servlet's request routing;
- the client's input validation and caches.

Cryptography, ASN.1/DER encoding, HTTP transport and the CA's own behaviour are not modelled. They appear as function-typed parameters, or as their results passed in, so every contract holds whatever those collaborators do. Shared mutable state becomes values threaded through each step:

- the static nonce `QUEUE`;
- the static tuple `cache`;
- the client's capability and verified-CA caches.

Modules, one per source component:

| module | file | models |
|---|---|---|
| `Wrappers` | wrappers.dfy | `Option` / `Result` for Java null and exceptions |
| `Asn1`, `X509` | asn1.dfy, x509.dfy | bytes, names, structural ASN.1 values, certificates, CSRs, CRLs |
| `Exceptions` | exceptions.dfy | the Java exceptions the core raises or lets escape |
| `FailInfos` | fail_info.dfy | `FailInfo` |
| `Capabilities` | capabilities.dfy | `Capabilities` |
| `AlgorithmDictionary` | algorithm_dictionary.dfy | `AlgorithmDictionary` |
| `IssuerAndSubjects` | issuer_and_subject.dfy | `IssuerAndSubject` |
| `CertificateSelector` | certificate_selector.dfy | `X509CertificateTupleFactory` and the `X509CertSelector` semantics it relies on |
| `Messages` | messages.dfy | pkiMessage requests and `CertRep` |
| `MessageEncoder` | message_encoder.dfy | `PkiMessageEncoder.encode` |
| `Envelope` | envelope.dfy | the recipient lookup of `PkcsPkiEnvelopeDecoder` |
| `Enrolment` | transaction.dfy | `EnrolmentTransaction` |
| `Servlet` | servlet.dfy | `ScepServlet.service` |
| `Client` | client.dfy | `Client` |

Where the design description and the code differ, the model follows the code:

- The issuer certificate is the first CA certificate in the store, whatever its key usage. `X509CertificateTupleFactory.java:78-80` sets an all-false key-usage mask, and `X509CertSelector` treats that mask as no requirement.
- The issuer-selection failure reads "No suitable certificate for verification" (`X509CertificateTupleFactory.java:90-91`).
- The nonce registry is a plain set with membership and insertion. The code gives it no capacity or eviction rule.
- In `PkiMessageEncoder.encode`, an envelope failure for raw-byte messageData is not caught. It escapes as the `IOException` it is (`PkiMessageEncoder.java:76-77`). The CSR and ASN.1 branches wrap the same failure in `MessageEncodingException`.

## Model

| member | source | states |
|---|---|---|
| FailInfos.Value | src/main/java/com/google/code/jscep/transaction/FailInfo.java:36-65 | every variant's code indexes that variant in the declaration-order table |
| FailInfos.CodeTable | src/main/java/com/google/code/jscep/transaction/FailInfo.java:36-52 | badAlg=0, badMessageCheck=1, badRequest=2, badTime=3, badCertId=4, in declaration order |
| FailInfos.Search | src/main/java/com/google/code/jscep/transaction/FailInfo.java:73-77 | the linear search finds a candidate with the code, or proves that no candidate has it |
| FailInfos.ValueOf | src/main/java/com/google/code/jscep/transaction/FailInfo.java:72-79 | succeeds exactly for codes 0..4, with a variant whose code is the input; otherwise IllegalArgumentException |
| FailInfos.ValueOfValue | src/main/java/com/google/code/jscep/transaction/FailInfo.java:63-65 | `valueOf(f.getValue()) == f` for every variant |
| FailInfos.CodesDistinct | src/main/java/com/google/code/jscep/transaction/FailInfo.java:36-52 | the codes are pairwise distinct, so the search answer is unique |
| FailInfos.Description | src/main/java/com/google/code/jscep/transaction/FailInfo.java:67-70 | `toString` gives the description, which is never the constant's name |
| Capabilities.AddAll | src/main/java/org/jscep/transport/response/Capabilities.java:28 | adding the arguments one by one yields exactly the old members plus the arguments |
| Capabilities.FromArgs | src/main/java/org/jscep/transport/response/Capabilities.java:26-29 | `contains(c)` holds iff c was among the arguments; duplicates collapse |
| Capabilities.QueriesFromArgs | src/main/java/org/jscep/transport/response/Capabilities.java:40-73 | POST, rollover and renewal support hold iff POST_PKI_OPERATION, GET_NEXT_CA_CERT and RENEWAL were among the arguments |
| Capabilities.ScanProviders | src/main/java/org/jscep/transport/response/Capabilities.java:104-115 | the nested scan over providers and their services answers true exactly when some service has the requested type and algorithm |
| Capabilities.StrongestCipher | src/main/java/org/jscep/transport/response/Capabilities.java:88-98 | "DESede" iff DESede is installed and TRIPLE_DES advertised; otherwise "DES"; nothing else |
| Capabilities.StrongestMessageDigest | src/main/java/org/jscep/transport/response/Capabilities.java:133-147 | the first of SHA-512, SHA-256, SHA-1 both installed and advertised; else MD5 if installed; else null |
| Capabilities.EmptyCapabilities | src/main/java/org/jscep/transport/response/Capabilities.java:26-98 | an empty capability set does not support POST, and its cipher is "DES" |
| Capabilities.Md5WithoutAdvertisement | src/main/java/org/jscep/transport/response/Capabilities.java:143-144 | MD5 is chosen with no capability advertised at all |
| Capabilities.Sha256PreferredOverSha1 | src/main/java/org/jscep/transport/response/Capabilities.java:133-142 | with SHA-256 and SHA-1 advertised and everything installed, SHA-256 wins |
| AlgorithmDictionary.Tokens | src/main/java/org/jscep/util/AlgorithmDictionary.java:109 | splitting on '/' gives slash-free tokens; the first is the text before the first '/', and a slash-free string is its own single token |
| AlgorithmDictionary.DropTrailingEmpty | src/main/java/org/jscep/util/AlgorithmDictionary.java:109 | `split` drops exactly the trailing run of empty tokens |
| AlgorithmDictionary.DropTrailingEmptyAll | src/main/java/org/jscep/util/AlgorithmDictionary.java:109 | nothing survives the drop iff every token is empty |
| AlgorithmDictionary.TokensAllEmpty | src/main/java/org/jscep/util/AlgorithmDictionary.java:109 | every token is empty iff the string consists of slashes only |
| AlgorithmDictionary.FromTransformation | src/main/java/org/jscep/util/AlgorithmDictionary.java:108-110 | the result never contains '/' |
| AlgorithmDictionary.FromTransformationSpec | src/main/java/org/jscep/util/AlgorithmDictionary.java:101-110 | a non-empty all-slash string throws ArrayIndexOutOfBounds; any other string gives the text before its first '/' |
| AlgorithmDictionary.NoSlashUnchanged | src/main/java/org/jscep/util/AlgorithmDictionary.java:108-110 | a string without '/' comes back unchanged |
| AlgorithmDictionary.Get | src/main/java/org/jscep/util/AlgorithmDictionary.java:119-121 | a table lookup answers a registered pair, or null when the key is absent |
| AlgorithmDictionary.Lookup | src/main/java/org/jscep/util/AlgorithmDictionary.java:119-121 | non-null exactly for the registered OIDs, and then the registered name |
| AlgorithmDictionary.ContentsWellFormed | src/main/java/org/jscep/util/AlgorithmDictionary.java:51-72 | the table holds 11 entries with pairwise distinct OIDs |
| AlgorithmDictionary.LookupRegistered | src/main/java/org/jscep/util/AlgorithmDictionary.java:51-72 | each of the 11 registered OIDs looks up to its own name |
| AlgorithmDictionary.LookupExamples | src/main/java/org/jscep/util/AlgorithmDictionary.java:53-69 | 1.2.840.113549.2.5 is "MD5", 2.16.840.1.101.3.4.2.1 is "SHA-256", 1.2.840.113549.1.1.1 is "RSA" |
| IssuerAndSubjects.NameOf | trunk/src/main/java/org/jscep/asn1/IssuerAndSubject.java:58-59 | `X500Name.getInstance` accepts exactly name values and returns the name they hold |
| IssuerAndSubjects.FromSequence | trunk/src/main/java/org/jscep/asn1/IssuerAndSubject.java:57-60 | succeeds iff elements 0 and 1 exist and are names, taking issuer from 0 and subject from 1; an empty sequence is out of bounds |
| IssuerAndSubjects.Make | trunk/src/main/java/org/jscep/asn1/IssuerAndSubject.java:62-77 | the getters return exactly the two names passed in |
| IssuerAndSubjects.ToAsn1Primitive | trunk/src/main/java/org/jscep/asn1/IssuerAndSubject.java:79-87 | a two-element sequence [issuer, subject] |
| IssuerAndSubjects.GetInstance | trunk/src/main/java/org/jscep/asn1/IssuerAndSubject.java:89-93 | a sequence goes through the sequence constructor; anything else is rejected with IllegalArgumentException |
| IssuerAndSubjects.FromBytes | trunk/src/main/java/org/jscep/asn1/IssuerAndSubject.java:67-69 | unparsable bytes or a non-sequence give IllegalArgumentException("badly encoded request"); a sequence goes through the sequence constructor |
| IssuerAndSubjects.RoundTrip | trunk/src/main/java/org/jscep/asn1/IssuerAndSubject.java:57-93 | rebuilding from `toASN1Primitive`, directly or via `getInstance`, recovers the same issuer and subject |
| IssuerAndSubjects.BytesRoundTrip | trunk/src/main/java/org/jscep/asn1/IssuerAndSubject.java:67-69 | with a reader that inverts the DER writer, the byte constructor recovers the value |
| CertificateSelector.MaskWith | trunk/src/main/java/org/jscep/client/X509CertificateTupleFactory.java:101-102 | a nine-bit key-usage mask with exactly the given bit set |
| CertificateSelector.SingleBitMatches | trunk/src/main/java/org/jscep/client/X509CertificateTupleFactory.java:101-103 | a one-bit selector matches a certificate with that bit or with no key-usage extension at all |
| CertificateSelector.CaSelectorMatches | trunk/src/main/java/org/jscep/client/X509CertificateTupleFactory.java:78-80 | an all-false mask with basicConstraints(0) matches exactly the CA certificates |
| CertificateSelector.GetCertificates | trunk/src/main/java/org/jscep/client/X509CertificateTupleFactory.java:85-88 | the filtered store holds only matching members of the store, is non-empty iff one matches, and starts with the first match |
| CertificateSelector.First | trunk/src/main/java/org/jscep/client/X509CertificateTupleFactory.java:87-88 | `iterator().next()` of the filtered store: the first match, if any |
| CertificateSelector.SelectEncryptionCertificate | trunk/src/main/java/org/jscep/client/X509CertificateTupleFactory.java:130-169 | first keyEncipherment match, else first dataEncipherment match, else first CA, else "No suitable certificate for encryption" |
| CertificateSelector.SelectMessageVerifier | trunk/src/main/java/org/jscep/client/X509CertificateTupleFactory.java:99-128 | first digitalSignature match, else first CA, else "No suitable certificate for verification" |
| CertificateSelector.SelectIssuerCertificate | trunk/src/main/java/org/jscep/client/X509CertificateTupleFactory.java:76-97 | the first CA certificate, else "No suitable certificate for verification" |
| CertificateSelector.SelectTuple | trunk/src/main/java/org/jscep/client/X509CertificateTupleFactory.java:58-70 | selects encryption, then signing, then issuer; the first failure wins; the tuple is (signing, encryption, issuer) and each is a store member |
| CertificateSelector.CreateTuple | trunk/src/main/java/org/jscep/client/X509CertificateTupleFactory.java:35-74 | a hit returns the cached tuple unchanged; a miss clears the cache and selects; a success leaves exactly one entry and a failure leaves it empty |
| CertificateSelector.SecondCallHitsCache | trunk/src/main/java/org/jscep/client/X509CertificateTupleFactory.java:36-40 | two consecutive calls with one store give the identical tuple and cache |
| CertificateSelector.SingleCaCertificate | trunk/src/main/java/org/jscep/client/X509CertificateTupleFactory.java:58-70 | a store holding one CA certificate uses it in all three roles |
| CertificateSelector.IssuerIgnoresKeyUsage | trunk/src/main/java/org/jscep/client/X509CertificateTupleFactory.java:76-97 | the first CA certificate is the issuer, whatever key usage it declares |
| Messages.PkcsReq | trunk/src/main/java/org/jscep/transaction/EnrolmentTransaction.java:78-79 | a PKCSReq carries the transaction id, the nonce and the CSR as messageData |
| Messages.GetCertInitialRequest | trunk/src/main/java/org/jscep/transaction/EnrolmentTransaction.java:144-146 | a GetCertInitial carries the transaction id, the nonce and the IssuerAndSubject |
| Messages.SuccessRep | trunk/api/src/main/java/org/jscep/message/CertRep.java:40-42 | CERT_REP, SUCCESS, the given messageData, no failInfo, the given ids |
| Messages.FailureRep | trunk/api/src/main/java/org/jscep/message/CertRep.java:52-54 | CERT_REP, FAILURE, no messageData, the given failInfo |
| Messages.PendingRep | trunk/api/src/main/java/org/jscep/message/CertRep.java:63-65 | CERT_REP, PENDING, neither messageData nor failInfo |
| Messages.CreateSuccessResponse | trunk/api/src/main/java/org/jscep/message/CertRep.java:67-71 | answers the request: same transaction id, recipientNonce = request senderNonce, a fresh senderNonce, status SUCCESS |
| Messages.CreateFailureResponse | trunk/api/src/main/java/org/jscep/message/CertRep.java:73-77 | answers the request with status FAILURE and the failInfo |
| Messages.CreatePendingResponse | trunk/api/src/main/java/org/jscep/message/CertRep.java:79-83 | answers the request with status PENDING |
| MessageEncoder.EnvelopePayload | trunk/src/main/java/org/jscep/message/PkiMessageEncoder.java:74-93 | raw bytes are enveloped unchanged; a CSR and other ASN.1 values are DER-encoded first; the wrapped failures are MessageEncodingException; null data is dereferenced |
| MessageEncoder.Encode | trunk/src/main/java/org/jscep/message/PkiMessageEncoder.java:63-136 | no content unless request or SUCCESS; otherwise the envelope of the serialised data; certificates exactly [senderCert]; SHA1withRSA over the message's attributes; later failures are MessageEncodingException |
| MessageEncoder.NonSuccessIgnoresPayload | trunk/src/main/java/org/jscep/message/PkiMessageEncoder.java:67-73 | a non-SUCCESS response encodes the same whatever its messageData |
| MessageEncoder.RequestContentIsEnvelope | trunk/src/main/java/org/jscep/message/PkiMessageEncoder.java:78-93 | with working collaborators, a PKCSReq is signed with content = envelope(DER of the CSR) |
| Envelope.FindRecipient | src/main/java/org/jscep/message/PkcsPkiEnvelopeDecoder.java:65-68 | finds the first recipient entry addressed to the id (no earlier entry is), or proves that none is |
| Envelope.Open | src/main/java/org/jscep/message/PkcsPkiEnvelopeDecoder.java:57-89 | no entry for the opener's certificate gives MessageDecodingException("Missing expected key transfer recipient"); success decrypts an entry addressed to it |
| Envelope.Seal | trunk/src/main/java/org/jscep/message/PkcsPkiEnvelopeEncoder.java:51-66 | one recipient entry, addressed to the recipient certificate's issuer and serial |
| Envelope.SealOpen | src/main/java/org/jscep/message/PkcsPkiEnvelopeDecoder.java:57-89 | what is sealed for a certificate opens with it, given a matching cipher |
| Envelope.WrongRecipient | src/main/java/org/jscep/message/PkcsPkiEnvelopeDecoder.java:70-73 | an envelope for another issuer/serial fails with the missing-recipient error |
| Enrolment.Request | trunk/src/main/java/org/jscep/transaction/EnrolmentTransaction.java:78-79 | the PKCSReq built once carries the transaction id, the constructor's nonce and the CSR |
| Enrolment.New | trunk/src/main/java/org/jscep/transaction/EnrolmentTransaction.java:67-80 | the id is derived from the CSR's public key, and a key that cannot be read gives TransactionException; there is no issuer and no state yet |
| Enrolment.SameKeySameId | trunk/src/main/java/org/jscep/transaction/EnrolmentTransaction.java:70-72 | two CSRs with one public key get the same transaction id |
| Enrolment.GetId | trunk/src/main/java/org/jscep/transaction/EnrolmentTransaction.java:83-85 | the id is the one the PKCSReq carries |
| Enrolment.SetIssuer | trunk/src/main/java/org/jscep/transaction/EnrolmentTransaction.java:213-215 | records the issuer and changes nothing else |
| Enrolment.ValidateExchange | trunk/src/main/java/org/jscep/transaction/EnrolmentTransaction.java:175-211 | the checks run in order: id mismatch, then a null recipientNonce, then an unequal recipientNonce, then a null senderNonce (accepted, registry unchanged), then a replayed senderNonce; a new nonce is added |
| Enrolment.RegistryGrows | trunk/src/main/java/org/jscep/transaction/EnrolmentTransaction.java:201-206 | validation only ever adds to the registry |
| Enrolment.ReplayRejected | trunk/src/main/java/org/jscep/transaction/EnrolmentTransaction.java:199-206 | once a senderNonce is accepted, a later response bearing it is rejected |
| Enrolment.FactoryResponseAccepted | trunk/api/src/main/java/org/jscep/message/CertRep.java:79-83 | a CertRep built by `createResponse` for the request passes validation and has its nonce recorded |
| Enrolment.ExtractCertStore | trunk/src/main/java/org/jscep/transaction/EnrolmentTransaction.java:124 | a SUCCESS reply yields its certificate and CRL bundle |
| Enrolment.Exchange | trunk/src/main/java/org/jscep/transaction/EnrolmentTransaction.java:100-117 | encoding failure → TransactionException; decoding failure → TransactionException; a non-CertRep → ClassCastException; otherwise validated against the request |
| Enrolment.Outcome | trunk/src/main/java/org/jscep/transaction/EnrolmentTransaction.java:121-127 | FAILURE → failure(failInfo), SUCCESS → success(cert store), anything else → pending |
| Enrolment.Run | trunk/src/main/java/org/jscep/transaction/EnrolmentTransaction.java:101-127 | no state transition when encoding, transport, decoding or validation fails; otherwise the state becomes the outcome |
| Enrolment.Send | trunk/src/main/java/org/jscep/transaction/EnrolmentTransaction.java:98-128 | exchanges the constructor's PKCSReq; the id, CSR and issuer are kept |
| Enrolment.PollRequest | trunk/src/main/java/org/jscep/transaction/EnrolmentTransaction.java:141-146 | GetCertInitial with the same transaction id and IssuerAndSubject(issuer subject, CSR subject); no issuer set → NullPointerException |
| Enrolment.Poll | trunk/src/main/java/org/jscep/transaction/EnrolmentTransaction.java:140-173 | without an issuer nothing happens but the NullPointerException; otherwise the poll request is exchanged like `send` |
| Enrolment.PendingThenIssued | trunk/src/main/java/org/jscep/transaction/EnrolmentTransaction.java:98-173 | PENDING to the PKCSReq then SUCCESS to a poll leaves the issued bundle as state and both server nonces recorded |
| Servlet.OperationNamed | trunk/server/src/main/java/org/jscep/server/ScepServlet.java:365 | `Operation.valueOf` recognises exactly the four operation names |
| Servlet.GetOperation | trunk/server/src/main/java/org/jscep/server/ScepServlet.java:359-366 | an absent parameter is null; an unknown name throws IllegalArgumentException |
| Servlet.GetMessageBytes | trunk/server/src/main/java/org/jscep/server/ScepServlet.java:455-471 | POST gives the body; otherwise an unknown operation throws; PKIOperation gives Base64 of the message (empty stays empty, absent is dereferenced); other operations give nothing |
| Servlet.IssuedOrPending | trunk/server/src/main/java/org/jscep/server/ScepServlet.java:274-292 | an empty issued list → PENDING, a non-empty one → SUCCESS with those certificates, OperationFailureException → FAILURE with its failInfo |
| Servlet.CertRepFor | trunk/server/src/main/java/org/jscep/server/ScepServlet.java:200-295 | every reply answers the request with a fresh nonce; GetCert is never PENDING; a GetCRL success holds one CRL; PENDING only for PKCSReq/GetCertInitial; a decoded response (always a CertRep) or a request tagged CertRep → ServletException "Unknown Message for Operation" |
| Servlet.OperationFailureGivesFailure | trunk/server/src/main/java/org/jscep/server/ScepServlet.java:286-287 | an enrolment hook failure becomes a FAILURE CertRep carrying its failInfo |
| Servlet.CapsTextLines | trunk/server/src/main/java/org/jscep/server/ScepServlet.java:368-376 | reading the GetCACaps body line by line gives back the capability names |
| Servlet.Dispatch | trunk/server/src/main/java/org/jscep/server/ScepServlet.java:150-306 | GetCACaps is text/plain; GetCACert is ca-cert for exactly one certificate, else ca-ra-cert; an empty GetNextCACert gives 501; PKIOperation is x-pki-message |
| Servlet.Respond | trunk/server/src/main/java/org/jscep/server/ScepServlet.java:100-148 | a missing operation gives 400 "Missing"; an unknown one gives 400 "Invalid"; a disallowed method gives 405 with Allow "GET, POST" for PKIOperation and "GET" otherwise |
| Servlet.Service | trunk/server/src/main/java/org/jscep/server/ScepServlet.java:95-308 | `getMessageBytes` runs first and its exceptions escape; then the routing above |
| Servlet.InvalidOperationOnGetEscapes | trunk/server/src/main/java/org/jscep/server/ScepServlet.java:98-122 | every non-POST request whose operation parameter names no operation ends in IllegalArgumentException, not the 400 answer the intended service gives |
| Servlet.BogusOperationOnGet | trunk/server/src/main/java/org/jscep/server/ScepServlet.java:98-122 | a GET with `operation=Bogus` ends in IllegalArgumentException("No enum constant") |
| Servlet.MessageBytesIntended | trunk/server/src/main/java/org/jscep/server/ScepServlet.java:455-471 | the message bytes, with an unknown operation read as no message |
| Servlet.ServiceIntended | trunk/server/src/main/java/org/jscep/server/ScepServlet.java:113-122 | every unknown operation gets 400 "Invalid"; the answer to every recognised one is unchanged |
| Servlet.InvalidOperationAnswered | trunk/server/src/main/java/org/jscep/server/ScepServlet.java:113-122 | the intended service answers 400 "Invalid" to an unknown operation on any method |
| Client.ValidateInput | trunk/client/src/main/java/org/jscep/client/Client.java:309-339 | nulls are checked in the order url, identity, private key, callback handler; then RSA keys, an http/https protocol, no reference, no query |
| Client.ProtocolPattern | trunk/client/src/main/java/org/jscep/client/Client.java:330 | `^https?$` matches exactly "http" and "https" |
| Client.GetCaCapabilities | trunk/client/src/main/java/org/jscep/client/Client.java:377-394 | a cached value is returned only when asked for; otherwise the capabilities are fetched and stored for the profile |
| Client.CachedCapabilitiesReused | trunk/client/src/main/java/org/jscep/client/Client.java:380-386 | a second cached lookup makes no request |
| Client.CreateTransport | trunk/client/src/main/java/org/jscep/client/Client.java:366-375 | POST iff the (cached) capabilities support POST, else GET |
| Client.NoCapabilitiesMeansGet | trunk/client/src/main/java/org/jscep/client/Client.java:366-375 | an empty capability set means GET |
| Client.VerifyCa | trunk/client/src/main/java/org/jscep/client/Client.java:396-416 | a cached certificate skips the callback; a rejected one raises IOException and is not cached; an IOException from the handler itself escapes and nothing is cached; an accepted one is cached |
| Client.AcceptedOnce | trunk/client/src/main/java/org/jscep/client/Client.java:398-400 | once accepted, a certificate verifies again without consulting the handler |
| Client.RevocationListResult | trunk/client/src/main/java/org/jscep/client/Client.java:225-239 | CERT_ISSUED gives the first CRL, or null when there is none; pending → IllegalStateException; else OperationFailureException(failInfo) |
| Client.RetrieveCa | trunk/client/src/main/java/org/jscep/client/Client.java:167-176 | a CA certificate is handed out only once the user has accepted it; the verified set only grows and the capability cache is untouched |
| Client.Transact | trunk/client/src/main/java/org/jscep/client/Client.java:341-345 | a query's transaction: the transport is chosen from the cached capabilities, then `getEncoder` fetches the CA store again and verifies its CA, and only then is the request sent; a result implies the second CA is verified |
| Client.GetRevocationList | trunk/client/src/main/java/org/jscep/client/Client.java:211-240 | the CA is retrieved and verified first (IOException if rejected); a CA with CRL distribution points → RuntimeException("Unimplemented"); then the GetCRL transaction (with its own CA check) runs and its state is mapped; a result implies both CAs are verified |
| Client.BothCasRemembered | trunk/client/src/main/java/org/jscep/client/Client.java:211-222 | when the store fetched again by `getEncoder` holds a second CA and the user accepts both, both end up in the verified set |
| Client.CertificateResult | trunk/client/src/main/java/org/jscep/client/Client.java:264-275 | CERT_ISSUED gives the certificates; pending → IllegalStateException; else OperationFailureException(failInfo) |
| Client.QueriesAgreeOnState | trunk/client/src/main/java/org/jscep/client/Client.java:225-275 | both queries succeed on exactly the same states and report a failure identically |
| Client.GetCertificate | trunk/client/src/main/java/org/jscep/client/Client.java:252-275 | the CA is retrieved and verified first; the GetCert transaction (with its own CA check) names the CA certificate's own issuer and serial number; a result implies both CAs are verified |
| Client.CertificateIgnoresSerial | trunk/client/src/main/java/org/jscep/client/Client.java:252-259 | the outcome of `getCertificate` does not depend on the serial number asked for |
| Client.AskedSerialIgnored | trunk/client/src/main/java/org/jscep/client/Client.java:252-259 | asking for serial 42 from a CA whose certificate has serial 1 returns the CA's own certificate, while the documented query returns the certificate asked for |
| Client.GetCertificateIntended | trunk/client/src/main/java/org/jscep/client/Client.java:241-251 | the documented query: the CA is retrieved and verified first, and a result implies a verified CA |
| Client.IntendedAnswersTheSerial | trunk/client/src/main/java/org/jscep/client/Client.java:241-251 | against a CA that answers as asked, the documented query returns only certificates with the requested serial, issued by the CA |
| Client.GetRolloverCertificate | trunk/client/src/main/java/org/jscep/client/Client.java:188-199 | capabilities are refetched and cached; without rollover support → UnsupportedOperationException before any other request; then the CA store is fetched and its CA verified (IOException if rejected, cached if accepted); only then the next-CA request |
| Client.RejectedCaStopsQueries | trunk/client/src/main/java/org/jscep/client/Client.java:396-416 | a rejected CA certificate makes the CRL, certificate and rollover queries fail with the IOException of `verifyCA`, and is not remembered |

## Left out

- Cryptography and encodings: CMS signing, RSA key transport, triple-DES, DER encoding, X.509 parsing, Base64 and the SHA-1 digest behind the transaction id. They are parameters (`Collaborators`, `Codecs`, `Channel`, `idOf`, `encrypt`/`decrypt`) with no properties assumed.
- The nonce and transaction-id generators: fresh nonces are parameters. The code of `TransactionId` and `NonceQueue` is not part of this model.
- `Transaction` (the base class), `NonEnrollmentTransaction`, `PkiMessageDecoder`, `AttributeTableFactory` and `X509CertificatePairFactory` are not part of this model. `ExtractCertStore`, the decoder in `Channel`, and the CA certificate handed to `VerifyCa` stand in for them.
- `Client.getCaCertificate` and `Client.enrol`: the request for the CA store and `X509CertificatePairFactory`, which is not part of this model, are one parameter (`ca`, the chosen CA or the error; `ca2` for the second fetch inside `getEncoder`); the verification that follows is `RetrieveCa`. The recipient `getEncoder` picks from that second store, and the envelope built for it, are part of `send`. `enrol` only combines these with `Enrolment.New`/`SetIssuer`.
- MessageEncoder.AttributesOf: the signed-attribute table is built by `AttributeTableFactory`, which is not part of this model; it is assumed to carry the message's transaction id, type, nonces, status and failInfo.
- Network and servlet I/O: HTTP transport, stream reading and writing, Writer flushing, Jetty. Requests and responses are plain records.
- Concurrency: the static nonce registry and tuple cache are unsynchronised in the code. Here they are sequential state passed explicitly.
- Provider lookup (`Security.getProviders()`) is the `Providers` parameter. `MessageDigest.getInstance` failing after a digest was found installed is not modelled.
- The Capability and Operation enums are not part of this model beyond the constants the core consults.
- The private, unused `OIDS` table of `AlgorithmDictionary`.
- The logging loop in `createTuple` that lists the store's certificates. Its `CertStoreException` cannot arise for a store modelled as a sequence.
- In the servlet, runtime exceptions thrown by the CA hooks other than OperationFailureException, and the `GeneralSecurityException`/`CMSException` → `ServletException` wrappers around building a degenerate SignedData, are not modelled. The bundle is built as `SignedCerts`.
- FailInfos.Description: states only that the description differs from the constant's name. The five description strings are constants in the body.
- Tests that need live Jetty, stdin or classes that are not part of this model.

## Findings

| source | as written | input that shows it | evidently intended | confidence | as-written member | corrected member |
|---|---|---|---|---|---|---|
| trunk/server/src/main/java/org/jscep/server/ScepServlet.java:98-122 | `service` calls `getMessageBytes` before its own operation check. On any method other than POST, `getMessageBytes` calls `Operation.valueOf` itself (line 459), so the IllegalArgumentException escapes and the 400 handler never runs | GET with `operation=Bogus` | 400 "Invalid \"operation\" parameter." for an unknown operation on every method | medium, not executed | Servlet.InvalidOperationOnGetEscapes | Servlet.InvalidOperationAnswered |
| trunk/client/src/main/java/org/jscep/client/Client.java:252-259 | `getCertificate(serial)` builds its IssuerAndSerialNumber from the CA certificate's own issuer and serial number and never reads `serial` | `getCertificate(42)` against a CA whose certificate has serial number 1 | a GetCert query for serial number 42, issued by the current CA, as the method's documentation says | medium, not executed | Client.AskedSerialIgnored | Client.IntendedAnswersTheSerial |
