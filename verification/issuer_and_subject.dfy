/** The SCEP IssuerAndSubject ASN.1 object,
    `IssuerAndSubject ::= SEQUENCE { issuer Name, subject Name }`. */
module IssuerAndSubjects {
  import opened Wrappers
  import opened Asn1
  import opened Exceptions

  datatype IssuerAndSubject = IssuerAndSubject(issuer: Name, subject: Name)

  /** What an `ASN1InputStream.readObject()` call yields: an object, null at
      the end of the stream, or an I/O failure on malformed input. */
  datatype ReadOutcome = Parsed(value: Value) | EndOfStream | Malformed

  /** `X500Name.getInstance`: only a name is a name. */
  function NameOf(v: Value): (r: Result<Name, Exception>)
    ensures r.Ok? <==> v.NameValue?
    ensures r.Ok? ==> v == NameValue(r.value)
  {
    if v.NameValue? then Ok(v.name) else Err(IllegalArgument("unknown object in factory"))
  }

  /** The sequence constructor: element 0 is the issuer, element 1 the
      subject; further elements are ignored. */
  function FromSequence(elements: seq<Value>): (r: Result<IssuerAndSubject, Exception>)
    ensures r.Ok? <==> |elements| >= 2 && elements[0].NameValue? && elements[1].NameValue?
    ensures r.Ok? ==> NameValue(r.value.issuer) == elements[0] && NameValue(r.value.subject) == elements[1]
    ensures |elements| == 0 ==> r == Err(IndexOutOfBounds)
  {
    if |elements| < 1 then Err(IndexOutOfBounds)
    else
      var issuer :- NameOf(elements[0]);
      if |elements| < 2 then Err(IndexOutOfBounds)
      else
        var subject :- NameOf(elements[1]);
        Ok(IssuerAndSubject(issuer, subject))
  }

  /** The two-name constructor. */
  function Make(issuer: Name, subject: Name): (ias: IssuerAndSubject)
    ensures GetIssuer(ias) == issuer && GetSubject(ias) == subject
  {
    IssuerAndSubject(issuer, subject)
  }

  function GetIssuer(ias: IssuerAndSubject): Name {
    ias.issuer
  }

  function GetSubject(ias: IssuerAndSubject): Name {
    ias.subject
  }

  /** `toASN1Primitive`: the two names as a SEQUENCE, issuer first. */
  function ToAsn1Primitive(ias: IssuerAndSubject): (v: Value)
    ensures v.Sequence? && |v.elements| == 2
    ensures v.elements[0] == NameValue(GetIssuer(ias)) && v.elements[1] == NameValue(GetSubject(ias))
  {
    Sequence([NameValue(ias.issuer), NameValue(ias.subject)])
  }

  /** `getInstance`: view the value as a SEQUENCE, then apply the sequence
      constructor. */
  function GetInstance(v: Value): (r: Result<IssuerAndSubject, Exception>)
    ensures !v.Sequence? ==> r == Err(IllegalArgument("unknown object in getInstance"))
    ensures v.Sequence? ==> r == FromSequence(v.elements)
  {
    match v
    case Sequence(elements) => FromSequence(elements)
    case _ => Err(IllegalArgument("unknown object in getInstance"))
  }

  /** The byte-array constructor. Reading the bytes, with `read` standing for
      the ASN.1 input stream, is guarded: an I/O failure or an object that is
      not a SEQUENCE becomes IllegalArgumentException("badly encoded request").
      An empty stream yields null, which the sequence constructor then
      dereferences. */
  function FromBytes(bytes: Bytes, read: Bytes -> ReadOutcome): (r: Result<IssuerAndSubject, Exception>)
    ensures read(bytes).Malformed? ==> r == Err(IllegalArgument("badly encoded request"))
    ensures read(bytes).Parsed? && !read(bytes).value.Sequence? ==> r == Err(IllegalArgument("badly encoded request"))
    ensures read(bytes).EndOfStream? ==> r.Err? && r.error.NullPointer?
    ensures read(bytes).Parsed? && read(bytes).value.Sequence? ==> r == FromSequence(read(bytes).value.elements)
  {
    match read(bytes)
    case Malformed => Err(IllegalArgument("badly encoded request"))
    case EndOfStream => Err(NullPointer("IssuerAndSubject(null)"))
    case Parsed(v) =>
      if v.Sequence? then FromSequence(v.elements) else Err(IllegalArgument("badly encoded request"))
  }

  /** Structural round trip: rebuilding from the primitive gives back the
      same issuer and subject, whether through the sequence constructor or
      `getInstance`. */
  lemma RoundTrip(ias: IssuerAndSubject)
    ensures FromSequence(ToAsn1Primitive(ias).elements) == Ok(ias)
    ensures GetInstance(ToAsn1Primitive(ias)) == Ok(ias)
  {
  }

  /** Round trip through bytes: for any DER codec whose reader returns what
      its writer wrote, decoding the encoding of the primitive recovers the
      object. */
  lemma BytesRoundTrip(ias: IssuerAndSubject, encode: Value -> Bytes, read: Bytes -> ReadOutcome)
    requires read(encode(ToAsn1Primitive(ias))) == Parsed(ToAsn1Primitive(ias))
    ensures FromBytes(encode(ToAsn1Primitive(ias)), read) == Ok(ias)
  {
    RoundTrip(ias);
  }
}
