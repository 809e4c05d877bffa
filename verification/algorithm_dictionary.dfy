/** Friendly names for algorithms: the cipher part of a JCA transformation
    string, and a fixed table from object identifiers to algorithm names. */
module AlgorithmDictionary {
  import opened Wrappers
  import opened Asn1
  import opened Exceptions

  /** The tokens of `s` around every '/', before Java drops trailing empty
      tokens: "a//b/" gives ["a", "", "b", ""]. */
  function Tokens(s: string): (r: seq<string>)
    ensures |r| >= 1
    ensures forall k | 0 <= k < |r| :: '/' !in r[k]
    ensures r[0] == PrefixBeforeSlash(s)
    ensures '/' !in s ==> r == [s]
  {
    if |s| == 0 then [""]
    else if s[0] == '/' then [""] + Tokens(s[1..])
    else
      var rest := Tokens(s[1..]);
      assert '/' !in s ==> '/' !in s[1..] && s == [s[0]] + s[1..];
      [[s[0]] + rest[0]] + rest[1..]
  }

  /** `tokens` with its trailing empty strings removed. */
  function DropTrailingEmpty(tokens: seq<string>): (r: seq<string>)
    ensures r <= tokens
    ensures |r| > 0 ==> r[|r| - 1] != ""
    ensures forall k | |r| <= k < |tokens| :: tokens[k] == ""
  {
    if |tokens| == 0 then []
    else if tokens[|tokens| - 1] == "" then DropTrailingEmpty(tokens[..|tokens| - 1])
    else tokens
  }

  /** `String.split("/")`: the string itself when it holds no '/'; otherwise
      its tokens without the trailing empty ones. */
  function Split(s: string): seq<string> {
    if '/' !in s then [s] else DropTrailingEmpty(Tokens(s))
  }

  /** `fromTransformation`: element 0 of the split, which does not exist when
      the string is made of '/' characters only. */
  function FromTransformation(transformation: string): (r: Result<string, Exception>)
    ensures r.Ok? ==> '/' !in r.value
  {
    var parts := Split(transformation);
    if |parts| == 0 then Err(IndexOutOfBounds) else Ok(parts[0])
  }

  /** The text before the first '/', or all of `s` when it holds none. */
  function PrefixBeforeSlash(s: string): string {
    if |s| == 0 || s[0] == '/' then "" else [s[0]] + PrefixBeforeSlash(s[1..])
  }

  predicate OnlySlashes(s: string) {
    forall k | 0 <= k < |s| :: s[k] == '/'
  }

  predicate AllEmpty(tokens: seq<string>) {
    forall k | 0 <= k < |tokens| :: |tokens[k]| == 0
  }

  /** Dropping trailing empty tokens leaves nothing exactly when every token
      is empty. */
  lemma {:induction false} DropTrailingEmptyAll(tokens: seq<string>)
    ensures DropTrailingEmpty(tokens) == [] <==> AllEmpty(tokens)
    decreases |tokens|
  {
    if |tokens| > 0 && tokens[|tokens| - 1] == "" {
      var init := tokens[..|tokens| - 1];
      DropTrailingEmptyAll(init);
      assert tokens == init + [""];
      assert AllEmpty(tokens) <==> AllEmpty(init) by {
        assert forall k | 0 <= k < |init| :: init[k] == tokens[k];
      }
    }
  }

  /** Every token of `s` is empty exactly when `s` is made of '/' only. */
  lemma {:induction false} TokensAllEmpty(s: string)
    ensures AllEmpty(Tokens(s)) <==> OnlySlashes(s)
    decreases |s|
  {
    if |s| > 0 {
      TokensAllEmpty(s[1..]);
      var t := Tokens(s);
      var rest := Tokens(s[1..]);
      if s[0] == '/' {
        assert t == [""] + rest;
        assert AllEmpty(t) <==> AllEmpty(rest) by {
          assert forall j | 0 <= j < |rest| :: rest[j] == t[j + 1];
          assert forall k | 1 <= k < |t| :: t[k] == rest[k - 1];
        }
        assert OnlySlashes(s) <==> OnlySlashes(s[1..]) by {
          assert forall k | 1 <= k < |s| :: s[k] == s[1..][k - 1];
        }
      } else {
        assert t[0] != "";
        assert !OnlySlashes(s);
      }
    }
  }

  /** The cipher part is the text before the first '/', and the call fails
      only on a non-empty string of slashes: "DES/CBC/PKCS5Padding" gives
      "DES", "DES" gives "DES", "/x" gives "", "//" fails. */
  lemma FromTransformationSpec(s: string)
    ensures FromTransformation(s) ==
      if |s| > 0 && OnlySlashes(s) then Err(IndexOutOfBounds) else Ok(PrefixBeforeSlash(s))
  {
    if '/' in s {
      var t := Tokens(s);
      DropTrailingEmptyAll(t);
      TokensAllEmpty(s);
      assert |s| > 0;
      var d := DropTrailingEmpty(t);
      assert Split(s) == d;
      if |d| > 0 {
        assert d[0] == t[0];
        assert !OnlySlashes(s);
      } else {
        assert OnlySlashes(s);
      }
    } else {
      assert Split(s) == [s];
      assert Tokens(s) == [s];
      assert PrefixBeforeSlash(s) == s;
      assert !OnlySlashes(s) || |s| == 0 by {
        if |s| > 0 {
          assert s[0] in s;
        }
      }
    }
  }

  /** A string without '/' is returned unchanged. */
  lemma {:induction false} NoSlashUnchanged(s: string)
    requires '/' !in s
    ensures FromTransformation(s) == Ok(s)
  {
  }

  /** The registered OID-to-name pairs, in the order the static initialiser
      puts them. */
  const Contents: seq<(Oid, string)> := [
    ("1.2.840.113549.1.1.1", "RSA"),
    ("1.2.840.113549.1.1.5", "SHA1withRSA"),
    ("1.2.840.113549.1.1.4", "md5withRSA"),
    ("1.2.840.113549.1.1.11", "sha256withRSA"),
    ("1.2.840.113549.1.1.13", "sha512withRSA"),
    ("1.3.14.3.2.7", "DES/CBC/PKCS5Padding"),
    ("1.2.840.113549.3.7", "DESede/CBC/PKCS5Padding"),
    ("1.3.14.3.2.26", "SHA"),
    ("1.2.840.113549.2.5", "MD5"),
    ("2.16.840.1.101.3.4.2.1", "SHA-256"),
    ("2.16.840.1.101.3.4.2.3", "SHA-512")
  ]

  /** An algorithm identifier; only its OID is consulted. */
  datatype AlgorithmIdentifier = AlgorithmIdentifier(algorithm: Oid)

  /** `HashMap.get` over a table of pairs with distinct keys. */
  function Get(table: seq<(Oid, string)>, oid: Oid): (r: Option<string>)
    ensures r.Some? ==> (oid, r.value) in table
    ensures r.None? ==> forall k | 0 <= k < |table| :: table[k].0 != oid
  {
    if |table| == 0 then None
    else if table[0].0 == oid then Some(table[0].1)
    else Get(table[1..], oid)
  }

  /** `lookup`: the registered name of the identifier's OID, or null. */
  function Lookup(alg: AlgorithmIdentifier): (name: Option<string>)
    ensures name.Some? <==> exists k | 0 <= k < |Contents| :: Contents[k].0 == alg.algorithm
    ensures name.Some? ==> (alg.algorithm, name.value) in Contents
  {
    Get(Contents, alg.algorithm)
  }

  /** The table has eleven entries, no OID registered twice, so each lookup
      of a registered OID has exactly one answer. */
  lemma ContentsWellFormed()
    ensures |Contents| == 11
    ensures forall i, j | 0 <= i < j < |Contents| :: Contents[i].0 != Contents[j].0
  {
  }

  /** Every registered OID looks up to the name registered for it, e.g.
      1.2.840.113549.2.5 to "MD5" and 2.16.840.1.101.3.4.2.1 to "SHA-256". */
  lemma LookupRegistered(k: nat)
    requires k < |Contents|
    ensures Lookup(AlgorithmIdentifier(Contents[k].0)) == Some(Contents[k].1)
  {
    ContentsWellFormed();
    var name := Lookup(AlgorithmIdentifier(Contents[k].0));
    var j :| 0 <= j < |Contents| && Contents[j] == (Contents[k].0, name.value);
    assert j == k;
  }

  lemma LookupExamples()
    ensures Lookup(AlgorithmIdentifier("1.2.840.113549.2.5")) == Some("MD5")
    ensures Lookup(AlgorithmIdentifier("2.16.840.1.101.3.4.2.1")) == Some("SHA-256")
    ensures Lookup(AlgorithmIdentifier("1.2.840.113549.1.1.1")) == Some("RSA")
  {
    LookupRegistered(8);
    LookupRegistered(9);
    LookupRegistered(0);
  }
}
