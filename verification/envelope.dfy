/** The pkcsPkiEnvelope reduced to what the protocol logic relies on: an
    envelope holds one encrypted key per recipient, addressed by the
    recipient certificate's issuer and serial number, and opening it needs
    a recipient entry for the opener's own certificate. The cipher is a
    pair of functions passed in. */
module Envelope {
  import opened Wrappers
  import opened Asn1
  import opened X509
  import opened Exceptions

  /** The key-transport recipient id: issuer name and serial number. */
  datatype RecipientId = RecipientId(issuer: Name, serial: nat)

  datatype RecipientInfo = RecipientInfo(rid: RecipientId, encryptedContent: Bytes)

  datatype EnvelopedData = EnvelopedData(recipientInfos: seq<RecipientInfo>)

  function RecipientIdOf(c: Cert): (rid: RecipientId)
    ensures rid.issuer == c.issuer && rid.serial == c.serial
  {
    RecipientId(c.issuer, c.serial)
  }

  /** The first recipient entry addressed to `rid`, if any. */
  function FindRecipient(infos: seq<RecipientInfo>, rid: RecipientId): (r: Option<RecipientInfo>)
    ensures r.Some? ==> r.value in infos && r.value.rid == rid
    ensures r.Some? ==> exists i :: 0 <= i < |infos| && infos[i] == r.value && forall j :: 0 <= j < i ==> infos[j].rid != rid
    ensures r.None? <==> forall i :: 0 <= i < |infos| ==> infos[i].rid != rid
  {
    if |infos| == 0 then None
    else if infos[0].rid == rid then Some(infos[0])
    else FindRecipient(infos[1..], rid)
  }

  /** Envelope `payload` for the holder of `recipient`. */
  function Seal(payload: Bytes, recipient: Cert, encrypt: Bytes -> Bytes): (e: EnvelopedData)
    ensures |e.recipientInfos| == 1 && e.recipientInfos[0].rid == RecipientIdOf(recipient)
  {
    EnvelopedData([RecipientInfo(RecipientIdOf(recipient), encrypt(payload))])
  }

  /** Open an envelope with the key of `recipient`; `decrypt` answers None
      where the CMS layer throws. */
  function Open(e: EnvelopedData, recipient: Cert, decrypt: Bytes -> Option<Bytes>): (r: Result<Bytes, Exception>)
    ensures (forall i :: 0 <= i < |e.recipientInfos| ==> e.recipientInfos[i].rid != RecipientIdOf(recipient)) ==>
      r == Err(MessageDecoding("Missing expected key transfer recipient"))
    ensures r.Ok? ==> exists i :: 0 <= i < |e.recipientInfos| && e.recipientInfos[i].rid == RecipientIdOf(recipient)
                                  && decrypt(e.recipientInfos[i].encryptedContent) == Some(r.value)
    ensures r.Err? ==> r.error.MessageDecoding?
  {
    match FindRecipient(e.recipientInfos, RecipientIdOf(recipient))
    case None => Err(MessageDecoding("Missing expected key transfer recipient"))
    case Some(info) =>
      match decrypt(info.encryptedContent)
      case None => Err(MessageDecoding("CMSException"))
      case Some(content) => Ok(content)
  }

  /** What is sealed for a certificate opens with that certificate's key. */
  lemma SealOpen(payload: Bytes, recipient: Cert, encrypt: Bytes -> Bytes, decrypt: Bytes -> Option<Bytes>)
    requires decrypt(encrypt(payload)) == Some(payload)
    ensures Open(Seal(payload, recipient, encrypt), recipient, decrypt) == Ok(payload)
  {
  }

  /** An envelope sealed for one certificate cannot be opened as another
      certificate with a different issuer or serial number. */
  lemma WrongRecipient(payload: Bytes, sealedFor: Cert, opener: Cert, encrypt: Bytes -> Bytes, decrypt: Bytes -> Option<Bytes>)
    requires RecipientIdOf(sealedFor) != RecipientIdOf(opener)
    ensures Open(Seal(payload, sealedFor, encrypt), opener, decrypt) == Err(MessageDecoding("Missing expected key transfer recipient"))
  {
  }
}
