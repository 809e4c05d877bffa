/** Selection of the signing, encryption and issuer certificates out of the
    certificate bundle a CA returns, with the process-wide single-slot cache
    of the last result passed explicitly as a value. */
module CertificateSelector {
  import opened Wrappers
  import opened X509
  import opened Exceptions

  /** An `X509CertSelector` restricted to the two criteria the factory sets:
      a required key-usage mask (None: no key-usage criterion) and the
      `setBasicConstraints` bound (-1: no criterion, -2: end entities only,
      n >= 0: CA certificates whose path length is at least n). */
  datatype Selector = Selector(keyUsage: Option<seq<bool>>, basicConstraints: int)

  /** A certificate matches a key-usage mask when it has no key-usage
      extension at all, or has every bit the mask requires. */
  predicate KeyUsageMatches(required: Option<seq<bool>>, c: Cert) {
    || required.None?
    || c.keyUsage.None?
    || forall b | 0 <= b < |required.value| :: required.value[b] ==> HasBit(c, b)
  }

  /** The certificate's key-usage extension is present and has bit `b`. */
  predicate HasBit(c: Cert, b: nat) {
    c.keyUsage.Some? && b < |c.keyUsage.value| && c.keyUsage.value[b]
  }

  predicate BasicConstraintsMatch(bound: int, c: Cert) {
    if bound == -1 then true
    else if bound == -2 then BasicConstraints(c) == -1
    else BasicConstraints(c) >= bound
  }

  predicate Matches(sel: Selector, c: Cert) {
    KeyUsageMatches(sel.keyUsage, c) && BasicConstraintsMatch(sel.basicConstraints, c)
  }

  /** `new boolean[9]` with only `bit` set. */
  function MaskWith(bit: nat): (mask: seq<bool>)
    requires bit < KeyUsageBits
    ensures |mask| == KeyUsageBits && mask[bit]
    ensures forall b | 0 <= b < |mask| && b != bit :: !mask[b]
  {
    seq(KeyUsageBits, b => b == bit)
  }

  /** `new boolean[9]`: no bit set. */
  const NoBits: seq<bool> := [false, false, false, false, false, false, false, false, false]

  const KeyEnciphermentSelector := Selector(Some(MaskWith(KeyEncipherment)), -1)
  const DataEnciphermentSelector := Selector(Some(MaskWith(DataEncipherment)), -1)
  const DigitalSignatureSelector := Selector(Some(MaskWith(DigitalSignature)), -1)
  /** The CA tier: an all-false key-usage mask and `setBasicConstraints(0)`. */
  const CaSelector := Selector(Some(NoBits), 0)

  /** A single-bit selector matches exactly the certificates that either
      carry no key-usage extension or have that bit. */
  lemma SingleBitMatches(bit: nat, c: Cert)
    requires bit < KeyUsageBits
    ensures Matches(Selector(Some(MaskWith(bit)), -1), c) <==> c.keyUsage.None? || HasBit(c, bit)
  {
    if c.keyUsage.Some? && !HasBit(c, bit) {
      assert MaskWith(bit)[bit];
    }
  }

  /** The CA tier matches exactly the CA certificates, whatever their key
      usage, because an all-false mask requires nothing. */
  lemma CaSelectorMatches(c: Cert)
    ensures Matches(CaSelector, c) <==> c.pathLen.Some?
  {
  }

  /** A collection-backed `CertStore`. Stores are compared by identity in the
      cache, which `handle` stands for. */
  datatype CertStore = CertStore(handle: nat, certs: seq<Cert>)

  predicate AnyMatch(certs: seq<Cert>, sel: Selector) {
    exists i | 0 <= i < |certs| :: Matches(sel, certs[i])
  }

  /** `c` is the first certificate of `certs` that `sel` matches. */
  predicate IsFirstMatch(certs: seq<Cert>, sel: Selector, c: Cert) {
    exists i | 0 <= i < |certs| ::
      certs[i] == c && Matches(sel, c) && forall j | 0 <= j < i :: !Matches(sel, certs[j])
  }

  /** `getCertificates(selector)` on a collection store: the matching
      certificates, in collection order. */
  function GetCertificates(certs: seq<Cert>, sel: Selector): (r: seq<Cert>)
    ensures forall c | c in r :: c in certs && Matches(sel, c)
    ensures |r| > 0 <==> AnyMatch(certs, sel)
    ensures |r| > 0 ==> IsFirstMatch(certs, sel, r[0])
  {
    if |certs| == 0 then []
    else
      var rest := GetCertificates(certs[1..], sel);
      if Matches(sel, certs[0]) then
        assert IsFirstMatch(certs, sel, certs[0]) by {
          assert certs[0] == certs[0];
        }
        [certs[0]] + rest
      else
        assert AnyMatch(certs, sel) ==> AnyMatch(certs[1..], sel) by {
          if AnyMatch(certs, sel) {
            var i :| 0 <= i < |certs| && Matches(sel, certs[i]);
            assert certs[1..][i - 1] == certs[i];
          }
        }
        assert |rest| > 0 ==> IsFirstMatch(certs, sel, rest[0]) by {
          if |rest| > 0 {
            var i :| 0 <= i < |certs[1..]| && certs[1..][i] == rest[0] && Matches(sel, rest[0])
                     && forall j | 0 <= j < i :: !Matches(sel, certs[1..][j]);
            assert certs[i + 1] == rest[0];
            assert forall j | 0 <= j < i + 1 :: !Matches(sel, certs[j]) by {
              forall j | 0 <= j < i + 1
                ensures !Matches(sel, certs[j])
              {
                if j > 0 {
                  assert certs[j] == certs[1..][j - 1];
                }
              }
            }
          }
        }
        rest
  }

  /** The first certificate `sel` matches, if any (`iterator().next()` after
      a `size() > 0` test). */
  function First(certs: seq<Cert>, sel: Selector): (r: Option<Cert>)
    ensures r.Some? <==> AnyMatch(certs, sel)
    ensures r.Some? ==> r.value in certs && IsFirstMatch(certs, sel, r.value)
  {
    var found := GetCertificates(certs, sel);
    if |found| > 0 then Some(found[0]) else None
  }

  /** `selectEncryptionCertificate`: keyEncipherment, then dataEncipherment,
      then the CA tier. */
  function SelectEncryptionCertificate(certs: seq<Cert>): (r: Result<Cert, Exception>)
    ensures r.Ok? ==> r.value in certs
    ensures AnyMatch(certs, KeyEnciphermentSelector) ==>
      r.Ok? && IsFirstMatch(certs, KeyEnciphermentSelector, r.value)
    ensures !AnyMatch(certs, KeyEnciphermentSelector) && AnyMatch(certs, DataEnciphermentSelector) ==>
      r.Ok? && IsFirstMatch(certs, DataEnciphermentSelector, r.value)
    ensures (!AnyMatch(certs, KeyEnciphermentSelector) && !AnyMatch(certs, DataEnciphermentSelector)
             && AnyMatch(certs, CaSelector)) ==>
      r.Ok? && IsFirstMatch(certs, CaSelector, r.value)
    ensures r.Err? <==>
      !AnyMatch(certs, KeyEnciphermentSelector) && !AnyMatch(certs, DataEnciphermentSelector)
      && !AnyMatch(certs, CaSelector)
    ensures r.Err? ==> r.error == Runtime("No suitable certificate for encryption")
  {
    match First(certs, KeyEnciphermentSelector)
    case Some(c) => Ok(c)
    case None =>
      match First(certs, DataEnciphermentSelector)
      case Some(c) => Ok(c)
      case None =>
        match First(certs, CaSelector)
        case Some(c) => Ok(c)
        case None => Err(Runtime("No suitable certificate for encryption"))
  }

  /** `selectMessageVerifier`: digitalSignature, then the CA tier. */
  function SelectMessageVerifier(certs: seq<Cert>): (r: Result<Cert, Exception>)
    ensures r.Ok? ==> r.value in certs
    ensures AnyMatch(certs, DigitalSignatureSelector) ==>
      r.Ok? && IsFirstMatch(certs, DigitalSignatureSelector, r.value)
    ensures !AnyMatch(certs, DigitalSignatureSelector) && AnyMatch(certs, CaSelector) ==>
      r.Ok? && IsFirstMatch(certs, CaSelector, r.value)
    ensures r.Err? <==> !AnyMatch(certs, DigitalSignatureSelector) && !AnyMatch(certs, CaSelector)
    ensures r.Err? ==> r.error == Runtime("No suitable certificate for verification")
  {
    match First(certs, DigitalSignatureSelector)
    case Some(c) => Ok(c)
    case None =>
      match First(certs, CaSelector)
      case Some(c) => Ok(c)
      case None => Err(Runtime("No suitable certificate for verification"))
  }

  /** `selectIssuerCertificate`: the CA tier only. Its failure message is the
      verification one. */
  function SelectIssuerCertificate(certs: seq<Cert>): (r: Result<Cert, Exception>)
    ensures r.Ok? ==> r.value in certs && IsFirstMatch(certs, CaSelector, r.value)
    ensures r.Err? <==> !AnyMatch(certs, CaSelector)
    ensures r.Err? ==> r.error == Runtime("No suitable certificate for verification")
  {
    match First(certs, CaSelector)
    case Some(c) => Ok(c)
    case None => Err(Runtime("No suitable certificate for verification"))
  }

  datatype Tuple = Tuple(signing: Cert, encryption: Cert, issuer: Cert)

  /** The static cache, keyed by store. */
  type TupleCache = map<CertStore, Tuple>

  /** Every cached tuple was selected from its own store. */
  predicate CacheConsistent(cache: TupleCache) {
    forall s | s in cache ::
      cache[s].signing in s.certs && cache[s].encryption in s.certs && cache[s].issuer in s.certs
  }

  datatype TupleStep = TupleStep(result: Result<Tuple, Exception>, cache: TupleCache)

  /** The selection half of `createTuple`: the encryption, signing and
      issuer certificates are selected in that order, the first failure
      propagates, and the tuple is built as (signing, encryption, issuer). */
  function SelectTuple(certs: seq<Cert>): (r: Result<Tuple, Exception>)
    ensures r.Ok? ==> r.value.signing in certs && r.value.encryption in certs && r.value.issuer in certs
    ensures r.Ok? <==>
      SelectEncryptionCertificate(certs).Ok? && SelectMessageVerifier(certs).Ok? && SelectIssuerCertificate(certs).Ok?
    ensures r.Ok? ==>
      && Ok(r.value.signing) == SelectMessageVerifier(certs)
      && Ok(r.value.encryption) == SelectEncryptionCertificate(certs)
      && Ok(r.value.issuer) == SelectIssuerCertificate(certs)
    ensures SelectEncryptionCertificate(certs).Err? ==> r == Err(SelectEncryptionCertificate(certs).error)
    ensures SelectEncryptionCertificate(certs).Ok? && SelectMessageVerifier(certs).Err? ==>
      r == Err(SelectMessageVerifier(certs).error)
    ensures SelectEncryptionCertificate(certs).Ok? && SelectMessageVerifier(certs).Ok? && SelectIssuerCertificate(certs).Err? ==>
      r == Err(SelectIssuerCertificate(certs).error)
  {
    var encryption :- SelectEncryptionCertificate(certs);
    var signing :- SelectMessageVerifier(certs);
    var issuer :- SelectIssuerCertificate(certs);
    Ok(Tuple(signing, encryption, issuer))
  }

  /** `createTuple`: a cache hit returns the stored tuple; a miss clears the
      cache, selects, and on success caches the new tuple alone. */
  function CreateTuple(cache: TupleCache, store: CertStore): (step: TupleStep)
    ensures store in cache ==> step == TupleStep(Ok(cache[store]), cache)
    ensures store !in cache ==> step.result == SelectTuple(store.certs)
    ensures store !in cache && step.result.Err? ==> step.cache == map[]
    ensures store !in cache && step.result.Ok? ==> step.cache == map[store := step.result.value]
    ensures |cache| <= 1 ==> |step.cache| <= 1
    ensures CacheConsistent(cache) ==> CacheConsistent(step.cache)
    ensures CacheConsistent(cache) && step.result.Ok? ==>
      && step.result.value.signing in store.certs
      && step.result.value.encryption in store.certs
      && step.result.value.issuer in store.certs
  {
    if store in cache then TupleStep(Ok(cache[store]), cache)
    else
      var cleared: TupleCache := if |cache| != 0 then map[] else cache;
      match SelectTuple(store.certs)
      case Err(e) => TupleStep(Err(e), cleared)
      case Ok(tuple) => TupleStep(Ok(tuple), cleared[store := tuple])
  }

  /** Two consecutive calls with the same store: the second is a cache hit
      returning the identical tuple and leaving the cache as it was. */
  lemma SecondCallHitsCache(cache: TupleCache, store: CertStore)
    requires CreateTuple(cache, store).result.Ok?
    ensures CreateTuple(CreateTuple(cache, store).cache, store) == CreateTuple(cache, store)
  {
  }

  /** A bundle holding one self-signed CA certificate without a key-usage
      extension yields that certificate in all three roles. */
  lemma SingleCaCertificate(ca: Cert, handle: nat)
    requires ca.keyUsage.None? && ca.pathLen.Some?
    ensures CreateTuple(map[], CertStore(handle, [ca])).result == Ok(Tuple(ca, ca, ca))
  {
    assert Matches(KeyEnciphermentSelector, ca);
    assert Matches(DigitalSignatureSelector, ca);
    assert Matches(CaSelector, ca);
  }

  /** The issuer is the first CA certificate even when that certificate
      has key-usage bits set: the all-false mask requires none. */
  lemma IssuerIgnoresKeyUsage(certs: seq<Cert>, k: nat)
    requires k < |certs| && certs[k].pathLen.Some?
    requires forall j | 0 <= j < k :: certs[j].pathLen.None?
    ensures SelectIssuerCertificate(certs) == Ok(certs[k])
  {
    assert Matches(CaSelector, certs[k]);
    var r := SelectIssuerCertificate(certs);
    var i :| 0 <= i < |certs| && certs[i] == r.value && Matches(CaSelector, r.value)
             && forall j | 0 <= j < i :: !Matches(CaSelector, certs[j]);
  }
}
