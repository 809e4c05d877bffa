/** Capability negotiation: the immutable set of capabilities a CA advertised,
    membership queries, and the priority-ordered choice of the strongest cipher
    and message digest that both the CA and the local JCA providers support. */
module Capabilities {
  import opened Wrappers

  /** The capabilities the core consults. */
  datatype Capability =
    | GetNextCaCert
    | PostPkiOperation
    | Renewal
    | Sha1
    | Sha256
    | Sha512
    | TripleDes

  /** An `EnumSet` of capabilities. */
  datatype Caps = Caps(members: set<Capability>)

  /** A JCA service as `Provider.getServices()` lists it: a type such as
      "Cipher" or "MessageDigest" and an algorithm name. */
  datatype Service = Service(kind: string, algorithm: string)

  /** The installed providers, each with its services, in the order
      `Security.getProviders()` returns them. */
  type Providers = seq<seq<Service>>

  /** `Collections.addAll(set, args)`: adds each argument in turn. */
  function AddAll(s: set<Capability>, args: seq<Capability>): (r: set<Capability>)
    ensures forall c :: c in r <==> c in s || c in args
    decreases |args|
  {
    if |args| == 0 then s else AddAll(s + {args[0]}, args[1..])
  }

  /** The constructor: an empty `EnumSet` to which every argument is added,
      duplicates collapsing into one member. */
  function FromArgs(args: seq<Capability>): (caps: Caps)
    ensures forall c :: Contains(caps, c) <==> c in args
  {
    Caps(AddAll({}, args))
  }

  predicate Contains(caps: Caps, c: Capability) {
    c in caps.members
  }

  predicate IsPostSupported(caps: Caps) {
    Contains(caps, PostPkiOperation)
  }

  predicate IsRolloverSupported(caps: Caps) {
    Contains(caps, GetNextCaCert)
  }

  predicate IsRenewalSupported(caps: Caps) {
    Contains(caps, Renewal)
  }

  /** True when some installed provider offers `algorithm` as a service of
      type `kind`. */
  predicate AlgorithmExists(providers: Providers, kind: string, algorithm: string) {
    exists i, j | 0 <= i < |providers| && 0 <= j < |providers[i]| ::
      providers[i][j] == Service(kind, algorithm)
  }

  /** The provider scan: walk every service of every provider and stop at the
      first one of the right type and algorithm. */
  method ScanProviders(providers: Providers, kind: string, algorithm: string) returns (found: bool)
    ensures found <==> AlgorithmExists(providers, kind, algorithm)
  {
    var i := 0;
    while i < |providers|
      invariant 0 <= i <= |providers|
      invariant forall p, q | 0 <= p < i && 0 <= q < |providers[p]| :: providers[p][q] != Service(kind, algorithm)
    {
      var j := 0;
      while j < |providers[i]|
        invariant 0 <= j <= |providers[i]|
        invariant forall q | 0 <= q < j :: providers[i][q] != Service(kind, algorithm)
      {
        var service := providers[i][j];
        if service.kind == kind && service.algorithm == algorithm {
          return true;
        }
        j := j + 1;
      }
      i := i + 1;
    }
    return false;
  }

  /** The strongest cipher shared with the CA: triple DES when the CA
      advertises it and a provider offers "DESede", otherwise single DES. */
  function StrongestCipher(caps: Caps, providers: Providers): (cipher: string)
    ensures cipher == "DESede" <==> AlgorithmExists(providers, "Cipher", "DESede") && Contains(caps, TripleDes)
    ensures cipher == "DESede" || cipher == "DES"
  {
    if AlgorithmExists(providers, "Cipher", "DESede") && Contains(caps, TripleDes) then "DESede" else "DES"
  }

  /** The digests tried in order, each with the capability that must be
      advertised for it to be chosen. */
  const DigestPreference: seq<(string, Capability)> :=
    [("SHA-512", Sha512), ("SHA-256", Sha256), ("SHA-1", Sha1)]

  /** True when digest `name` is installed locally and advertised by the CA. */
  predicate Negotiated(caps: Caps, providers: Providers, entry: (string, Capability)) {
    AlgorithmExists(providers, "MessageDigest", entry.0) && Contains(caps, entry.1)
  }

  /** The strongest message digest shared with the CA: the first of SHA-512,
      SHA-256 and SHA-1 that is both installed and advertised; failing those,
      MD5 whenever it is installed, advertised or not; failing that, null. */
  function StrongestMessageDigest(caps: Caps, providers: Providers): (digest: Option<string>)
    ensures digest.Some? && digest.value != "MD5" ==>
      exists k | 0 <= k < |DigestPreference| ::
        && DigestPreference[k].0 == digest.value
        && Negotiated(caps, providers, DigestPreference[k])
        && forall m | 0 <= m < k :: !Negotiated(caps, providers, DigestPreference[m])
    ensures digest == Some("MD5") <==>
      && (forall k | 0 <= k < |DigestPreference| :: !Negotiated(caps, providers, DigestPreference[k]))
      && AlgorithmExists(providers, "MessageDigest", "MD5")
    ensures digest.None? <==>
      && (forall k | 0 <= k < |DigestPreference| :: !Negotiated(caps, providers, DigestPreference[k]))
      && !AlgorithmExists(providers, "MessageDigest", "MD5")
  {
    if AlgorithmExists(providers, "MessageDigest", "SHA-512") && Contains(caps, Sha512) then
      assert Negotiated(caps, providers, DigestPreference[0]);
      Some("SHA-512")
    else if AlgorithmExists(providers, "MessageDigest", "SHA-256") && Contains(caps, Sha256) then
      assert Negotiated(caps, providers, DigestPreference[1]);
      Some("SHA-256")
    else if AlgorithmExists(providers, "MessageDigest", "SHA-1") && Contains(caps, Sha1) then
      assert Negotiated(caps, providers, DigestPreference[2]);
      Some("SHA-1")
    else if AlgorithmExists(providers, "MessageDigest", "MD5") then
      Some("MD5")
    else
      None
  }

  /** Each query answers whether its capability was among the constructor
      arguments. */
  lemma QueriesFromArgs(args: seq<Capability>)
    ensures IsPostSupported(FromArgs(args)) <==> PostPkiOperation in args
    ensures IsRolloverSupported(FromArgs(args)) <==> GetNextCaCert in args
    ensures IsRenewalSupported(FromArgs(args)) <==> Renewal in args
  {
  }

  /** A CA that advertises nothing does not support POST and is offered
      single DES. */
  lemma EmptyCapabilities(providers: Providers)
    ensures !IsPostSupported(FromArgs([]))
    ensures StrongestCipher(FromArgs([]), providers) == "DES"
  {
  }

  /** MD5 may be chosen although the CA advertised nothing at all. */
  lemma Md5WithoutAdvertisement(providers: Providers)
    requires AlgorithmExists(providers, "MessageDigest", "MD5")
    ensures StrongestMessageDigest(FromArgs([]), providers) == Some("MD5")
  {
  }

  /** With SHA-256 and SHA-1 advertised and every digest installed, the
      unadvertised SHA-512 is skipped and SHA-256 chosen. */
  lemma Sha256PreferredOverSha1(providers: Providers)
    requires forall d | d in ["SHA-512", "SHA-256", "SHA-1", "MD5"] :: AlgorithmExists(providers, "MessageDigest", d)
    ensures StrongestMessageDigest(FromArgs([Sha256, Sha1]), providers) == Some("SHA-256")
  {
    assert "SHA-256" in ["SHA-512", "SHA-256", "SHA-1", "MD5"];
  }
}
