/** Value-level stand-ins for the ASN.1 objects the protocol core handles.
    DER bytes are never parsed here: an X.500 name is a sequence of relative
    distinguished names, and an ASN.1 value is either a SEQUENCE of values,
    a name, or some other primitive carried as its encoding. */
module Asn1 {

  newtype byte = x: int | 0 <= x < 256

  type Bytes = seq<byte>

  /** Dotted-decimal object identifier, compared by its text as
      `DERObjectIdentifier.equals` does. */
  type Oid = string

  /** An X.500 distinguished name. */
  datatype Name = Name(rdns: seq<string>)

  /** An ASN.1 value as the core sees it. */
  datatype Value =
    | Sequence(elements: seq<Value>)
    | NameValue(name: Name)
    | Primitive(tag: nat, content: Bytes)
}
