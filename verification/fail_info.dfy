/** The SCEP failInfo attribute of section 3.1.1.4 of draft-nourse-scep-20:
    five reasons, each with a fixed numeric code and a human-readable
    description. */
module FailInfos {
  import opened Wrappers

  datatype FailInfo = BadAlg | BadMessageCheck | BadRequest | BadTime | BadCertId

  /** The constants in declaration order, as `FailInfo.values()` yields them. */
  const Values: seq<FailInfo> := [BadAlg, BadMessageCheck, BadRequest, BadTime, BadCertId]

  /** The protocol code of a reason. */
  function Value(f: FailInfo): (code: nat)
    ensures code < |Values| && Values[code] == f
  {
    match f
    case BadAlg => 0
    case BadMessageCheck => 1
    case BadRequest => 2
    case BadTime => 3
    case BadCertId => 4
  }

  /** The Java constant name of a reason. */
  function ConstantName(f: FailInfo): string {
    match f
    case BadAlg => "badAlg"
    case BadMessageCheck => "badMessageCheck"
    case BadRequest => "badRequest"
    case BadTime => "badTime"
    case BadCertId => "badCertId"
  }

  /** What `toString` returns: the description, not the constant name. */
  function Description(f: FailInfo): (desc: string)
    ensures desc != ConstantName(f)
  {
    match f
    case BadAlg => "Unrecognized or unsupported algorithm identifier"
    case BadMessageCheck => "Integrity check failed"
    case BadRequest => "Transaction not permitted or supported"
    case BadTime => "The signingTime attribute from the PKCS#7 SignedAttributes was not sufficiently close to the system time"
    case BadCertId => "No certificate could be identified matching the provided criteria"
  }

  /** Linear search of `candidates` for the first reason whose code is `code`. */
  function Search(candidates: seq<FailInfo>, code: int): (r: Option<FailInfo>)
    ensures r.Some? ==> r.value in candidates && Value(r.value) == code
    ensures r.None? ==> forall f :: f in candidates ==> Value(f) != code
  {
    if |candidates| == 0 then None
    else if Value(candidates[0]) == code then Some(candidates[0])
    else Search(candidates[1..], code)
  }

  /** `FailInfo.valueOf(int)`: the reason with the given code, or an
      IllegalArgumentException when no reason has it. */
  function ValueOf(code: int): (r: Result<FailInfo, string>)
    ensures r.Ok? <==> 0 <= code < |Values|
    ensures r.Ok? ==> Value(r.value) == code
    ensures r.Err? ==> r.error == "IllegalArgumentException"
  {
    match Search(Values, code)
    case Some(f) => Ok(f)
    case None =>
      assert Value(Values[if 0 <= code < |Values| then code else 0]) == (if 0 <= code < |Values| then code else 0);
      Err("IllegalArgumentException")
  }

  /** Looking up the code of a reason gives back that reason. */
  lemma ValueOfValue(f: FailInfo)
    ensures ValueOf(Value(f)) == Ok(f)
  {
    CodesDistinct(f, ValueOf(Value(f)).value);
  }

  /** Different reasons have different codes, so the search in `ValueOf`
      has exactly one answer for every code it accepts. */
  lemma CodesDistinct(f: FailInfo, g: FailInfo)
    ensures Value(f) == Value(g) ==> f == g
  {
  }

  /** The concrete code table. */
  lemma CodeTable()
    ensures Value(BadAlg) == 0 && Value(BadMessageCheck) == 1 && Value(BadRequest) == 2
    ensures Value(BadTime) == 3 && Value(BadCertId) == 4
    ensures Values == [BadAlg, BadMessageCheck, BadRequest, BadTime, BadCertId]
  {
  }
}
