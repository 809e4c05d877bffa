/** The X.509 objects the protocol core inspects, reduced to the fields it
    reads: names, serial number, public key algorithm, the key-usage bits of
    section 4.2.1.3 of RFC 5280 and the basicConstraints path length of
    section 4.2.1.9 of RFC 5280. */
module X509 {
  import opened Wrappers
  import opened Asn1

  /** Key-usage bit positions of section 4.2.1.3 of RFC 5280. */
  const DigitalSignature: nat := 0
  const KeyEncipherment: nat := 2
  const DataEncipherment: nat := 3

  /** Length of the key-usage masks the selector builds (`new boolean[9]`). */
  const KeyUsageBits: nat := 9

  datatype PublicKey = PublicKey(algorithm: string, encoded: Bytes)

  datatype Cert = Cert(
    subject: Name,
    issuer: Name,
    serial: nat,
    publicKey: PublicKey,
    /** The key-usage bits, or None when the extension is absent. */
    keyUsage: Option<seq<bool>>,
    /** The path length of a CA's basicConstraints, or None when the
        certificate is not a CA. */
    pathLen: Option<nat>)

  /** `getBasicConstraints()`: -1 for a non-CA, else the path length. */
  function BasicConstraints(c: Cert): (n: int)
    ensures n >= 0 <==> c.pathLen.Some?
  {
    match c.pathLen
    case None => -1
    case Some(len) => len
  }

  /** A PKCS #10 certification request. */
  datatype Csr = Csr(subject: Name, publicKey: PublicKey)

  /** A certificate revocation list. */
  datatype Crl = Crl(issuer: Name, revokedSerials: seq<nat>)
}
