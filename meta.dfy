/** The canonical package model of meta/package.go: Package, Supplier,
    Checksum and the HashAlgorithm enumeration.

    Go's pointer-receiver methods that write a field (Supplier.Get,
    Checksum.String) are modelled as functions that return their result
    together with the updated record. Hashing itself is a parameter: a
    `Hasher` gives the digest bytes of a content under SHA-1, SHA-256 or
    SHA-512. */
module Meta {
  import opened Wrappers
  import opened GoStrings

  newtype byte = x: int | 0 <= x < 256

  // ---------------------------------------------------------------------
  // Supplier
  // ---------------------------------------------------------------------

  /** A Go string type: the two named values below, or any other string (the zero value is ""). */
  type SupplierType = string

  const Person: SupplierType := "Person"
  const Organization: SupplierType := "Organization"

  /** The supplier of a package. `FuncGetSupplier` is the optional override
      a plugin may install; None stands for a nil func. */
  datatype Supplier = Supplier(
    Type: SupplierType,
    Name: string,
    Email: string,
    FuncGetSupplier: Option<() -> string>)

  /** True when the email is missing or one of the sentinels "none" / "unknown", in any case. */
  predicate EmailIsEmpty(s: Supplier): (r: bool)
    ensures |s.Email| == 0 ==> r
    ensures r ==> |s.Email| in {0, 4, 7}
  {
    var email := ToLower(s.Email);
    |s.Email| == 0 || email == "none" || email == "unknown"
  }

  /** Supplier.Get: the supplier's text, and the supplier after the call
      (Get writes Organization into an empty Type). Only Type can change. */
  function Get(s: Supplier): (r: (string, Supplier))
    ensures r.1.Name == s.Name && r.1.Email == s.Email
    ensures r.1.FuncGetSupplier == s.FuncGetSupplier
    ensures r.1.Type == s.Type || (s.Type == "" && r.1.Type == Organization)
  {
    if s.FuncGetSupplier.Some? then (s.FuncGetSupplier.value(), s)
    else if s.Name == "" then ("", s)
    else
      var s' := if s.Type == "" then s.(Type := Organization) else s;
      var text := s'.Type + ": " + s'.Name;
      if !EmailIsEmpty(s') then (text + " (" + s'.Email + ")", s') else (text, s')
  }

  /** The email sentinels are recognised whatever their case. */
  lemma EmailIsEmptyIgnoresCase(s: Supplier, t: Supplier)
    requires ToLower(s.Email) == ToLower(t.Email)
    ensures EmailIsEmpty(s) == EmailIsEmpty(t)
  {
    assert |s.Email| == |ToLower(s.Email)| == |ToLower(t.Email)| == |t.Email|;
  }

  /** An installed override decides the text alone and nothing is written. */
  lemma GetWithOverride(s: Supplier)
    requires s.FuncGetSupplier.Some?
    ensures Get(s) == (s.FuncGetSupplier.value(), s)
  {
  }

  /** Without an override, an empty Name renders as "" and Type is left alone. */
  lemma GetWithoutName(s: Supplier)
    requires s.FuncGetSupplier.None? && s.Name == ""
    ensures Get(s) == ("", s)
  {
  }

  /** The default rendering "<Type>: <Name>", with " (<Email>)" exactly when
      the email is not empty; an empty Type becomes Organization for good. */
  lemma GetDefaultRendering(s: Supplier)
    requires s.FuncGetSupplier.None? && s.Name != ""
    ensures var (text, s') := Get(s);
      && s'.Type == (if s.Type == "" then Organization else s.Type)
      && s' == s.(Type := s'.Type)
      && text == s'.Type + ": " + s.Name + (if EmailIsEmpty(s) then "" else " (" + s.Email + ")")
  {
  }

  /** Calling Get again gives the same text and leaves the supplier as the first call left it. */
  lemma GetIdempotent(s: Supplier)
    ensures Get(Get(s).1) == Get(s)
  {
  }

  /** Worked rendering: an email "none" is suppressed. */
  lemma GetExampleSentinelEmail()
    ensures Get(Supplier(Organization, "Acme", "none", None)).0 == "Organization: Acme"
  {
    LowerOfLowerCaseText("none");
  }

  /** Worked rendering: a real email is appended in parentheses. */
  lemma GetExampleWithEmail(email: string)
    requires email == "jane@x.com"
    ensures Get(Supplier(Person, "Jane", email, None)).0 == "Person: Jane (jane@x.com)"
  {
  }

  /** Worked rendering: an empty Type reads as Organization and "NONE" is a sentinel too. */
  lemma GetExampleDefaultType()
    ensures Get(Supplier("", "Acme", "NONE", None)) ==
      ("Organization: Acme", Supplier(Organization, "Acme", "NONE", None))
  {
    var s := Supplier("", "Acme", "NONE", None);
    assert ToLower("NONE") == "none" by {
      assert forall i :: 0 <= i < 4 ==> ToLower("NONE")[i] == "none"[i];
    }
    assert EmailIsEmpty(s);
    GetDefaultRendering(s);
    assert Organization + ": " + "Acme" == "Organization: Acme";
  }

  /** Text without capitals is its own lower-case form. */
  lemma LowerOfLowerCaseText(s: string)
    requires forall i :: 0 <= i < |s| ==> !('A' <= s[i] <= 'Z')
    ensures ToLower(s) == s
  {
    assert forall i :: 0 <= i < |s| ==> ToLower(s)[i] == s[i];
  }

  // ---------------------------------------------------------------------
  // Hash algorithms
  // ---------------------------------------------------------------------

  /** A Go string type: the ten named values below, or any other string. */
  type HashAlgorithm = string

  const HashAlgoSHA1: HashAlgorithm := "SHA1"
  const HashAlgoSHA224: HashAlgorithm := "SHA224"
  const HashAlgoSHA256: HashAlgorithm := "SHA256"
  const HashAlgoSHA384: HashAlgorithm := "SHA384"
  const HashAlgoSHA512: HashAlgorithm := "SHA512"
  const HashAlgoMD2: HashAlgorithm := "MD2"
  const HashAlgoMD4: HashAlgorithm := "MD4"
  const HashAlgoMD5: HashAlgorithm := "MD5"
  const HashAlgoMD6: HashAlgorithm := "MD6"
  const HashAlgoUnsupported: HashAlgorithm := "unsupported"

  /** The enumeration. */
  const Algorithms: set<HashAlgorithm> := {
    HashAlgoSHA1, HashAlgoSHA224, HashAlgoSHA256, HashAlgoSHA384, HashAlgoSHA512,
    HashAlgoMD2, HashAlgoMD4, HashAlgoMD5, HashAlgoMD6, HashAlgoUnsupported }

  /** The upper-case names the lookup recognises. */
  const RecognisedNames: set<string> := {
    "SHA1", "SHA224", "SHA256", "SHA384", "SHA512", "MD2", "MD4", "MD5", "MD6" }

  /** GetHashAlgorithm, as written: a case-insensitive lookup that is total,
      answers "unsupported" for anything it does not recognise, and reads
      "MD4" as MD2, so it never answers MD4. */
  function GetHashAlgorithm(h: string): (r: HashAlgorithm)
    ensures r in Algorithms && r != HashAlgoMD4
    ensures r == HashAlgoUnsupported <==> ToUpper(h) !in RecognisedNames
    ensures ToUpper(h) in RecognisedNames - {"MD4"} ==> r == ToUpper(h)
  {
    var u := ToUpper(h);
    if u == "SHA1" then HashAlgoSHA1
    else if u == "SHA224" then HashAlgoSHA224
    else if u == "SHA256" then HashAlgoSHA256
    else if u == "SHA384" then HashAlgoSHA384
    else if u == "SHA512" then HashAlgoSHA512
    else if u == "MD2" then HashAlgoMD2
    else if u == "MD4" then HashAlgoMD2
    else if u == "MD5" then HashAlgoMD5
    else if u == "MD6" then HashAlgoMD6
    else HashAlgoUnsupported
  }

  /** The lookup does not depend on the case of its input. */
  lemma GetHashAlgorithmIgnoresCase(h: string)
    ensures GetHashAlgorithm(ToUpper(h)) == GetHashAlgorithm(h)
    ensures GetHashAlgorithm(ToLower(h)) == GetHashAlgorithm(h)
  {
    ToUpperIdempotent(h);
    ToUpperOfLower(h);
  }

  /** "md4", "MD4", "Md4" ... all come back as MD2: MD4 does not round-trip. */
  lemma GetHashAlgorithmReadsMd4AsMd2(h: string)
    requires ToUpper(h) == "MD4"
    ensures GetHashAlgorithm(h) == HashAlgoMD2
    ensures GetHashAlgorithm(HashAlgoMD4) != HashAlgoMD4
  {
    ToUpperOfUpperCaseName(HashAlgoMD4);
  }

  /** The lookup the enumeration evidently intends: "MD4" gives MD4. */
  function GetHashAlgorithmIntended(h: string): (r: HashAlgorithm)
    ensures r in Algorithms
    ensures ToUpper(h) != "MD4" ==> r == GetHashAlgorithm(h)
  {
    if ToUpper(h) == "MD4" then HashAlgoMD4 else GetHashAlgorithm(h)
  }

  /** With the correction every named algorithm is found again from its own name. */
  lemma GetHashAlgorithmIntendedRoundTrip()
    ensures forall a :: a in Algorithms - {HashAlgoUnsupported} ==> GetHashAlgorithmIntended(a) == a
  {
    forall a | a in Algorithms - {HashAlgoUnsupported}
      ensures GetHashAlgorithmIntended(a) == a
    {
      NameRoundTrip(a);
    }
  }

  lemma NameRoundTrip(a: HashAlgorithm)
    requires a in Algorithms - {HashAlgoUnsupported}
    ensures GetHashAlgorithmIntended(a) == a
  {
    assert forall i :: 0 <= i < |a| ==> 'A' <= a[i] <= 'Z' || '0' <= a[i] <= '9';
    ToUpperOfUpperCaseName(a);
  }

  /** Names written in capitals and digits are their own upper-case form. */
  lemma ToUpperOfUpperCaseName(a: string)
    requires forall i :: 0 <= i < |a| ==> 'A' <= a[i] <= 'Z' || '0' <= a[i] <= '9'
    ensures ToUpper(a) == a
  {
    assert forall i :: 0 <= i < |a| ==> ToUpper(a)[i] == a[i];
  }

  // ---------------------------------------------------------------------
  // Checksum
  // ---------------------------------------------------------------------

  /** The hash functions Compute can pick. */
  datatype HashFunction = Sha1 | Sha256 | Sha512

  /** Digest length in bytes. */
  function DigestSize(f: HashFunction): nat {
    match f
    case Sha1 => 20
    case Sha256 => 32
    case Sha512 => 64
  }

  /** The digest computation, left abstract: it maps a hash function and content to digest bytes. */
  type Hasher = (HashFunction, seq<byte>) -> seq<byte>

  /** A hasher whose digests have the standard lengths. */
  ghost predicate WellFormedHasher(hash: Hasher) {
    forall f, content :: |hash(f, content)| == DigestSize(f)
  }

  /** The switch of Checksum.Compute: SHA-256 and SHA-512 by name, SHA-1 for every other value. */
  function HashFunctionOf(a: HashAlgorithm): HashFunction {
    if a == HashAlgoSHA256 then Sha256
    else if a == HashAlgoSHA512 then Sha512
    else Sha1
  }

  /** The lower-case hex digit of a nibble. */
  function HexDigit(n: nat): (c: char)
    requires n < 16
  {
    if n < 10 then ('0' as int + n) as char else ('a' as int + n - 10) as char
  }

  predicate IsLowerHex(s: string) {
    forall i :: 0 <= i < |s| ==> '0' <= s[i] <= '9' || 'a' <= s[i] <= 'f'
  }

  /** hex.EncodeToString: two lower-case digits per byte, high nibble first. */
  function HexEncode(b: seq<byte>): (r: string)
    ensures |r| == 2 * |b|
    ensures IsLowerHex(r)
  {
    if b == [] then []
    else [HexDigit(b[0] as int / 16), HexDigit(b[0] as int % 16)] + HexEncode(b[1..])
  }

  function HexValue(c: char): (v: nat)
    ensures v < 16
  {
    if '0' <= c <= '9' then c as int - '0' as int
    else if 'a' <= c <= 'f' then c as int - 'a' as int + 10
    else 0
  }

  /** The inverse of HexEncode (a trailing odd digit is dropped). */
  function HexDecode(s: string): seq<byte> {
    if |s| < 2 then []
    else [(HexValue(s[0]) * 16 + HexValue(s[1])) as byte] + HexDecode(s[2..])
  }

  /** Decoding the hex text gives the digest bytes back. */
  lemma {:induction false} HexRoundTrip(b: seq<byte>)
    ensures HexDecode(HexEncode(b)) == b
  {
    if b != [] {
      var e := HexEncode(b);
      var x := b[0] as int;
      HexRoundTrip(b[1..]);
      assert e[2..] == HexEncode(b[1..]);
      assert HexValue(e[0]) == x / 16 && HexValue(e[1]) == x % 16;
      assert x == x / 16 * 16 + x % 16;
      assert HexDecode(e) == [b[0]] + b[1..];
    }
  }

  /** A checksum: the algorithm's name, the content and the cached hex digest ("" until computed). */
  datatype Checksum = Checksum(Algorithm: HashAlgorithm, Content: seq<byte>, Value: string)

  /** Checksum.Compute: the lower-case hex digest of `content`, with the hash
      function chosen by the checksum's algorithm. */
  function Compute(c: Checksum, content: seq<byte>, hash: Hasher): (r: string)
    ensures IsLowerHex(r)
    ensures |r| == 2 * |hash(HashFunctionOf(c.Algorithm), content)|
    ensures HexDecode(r) == hash(HashFunctionOf(c.Algorithm), content)
  {
    var digest := hash(HashFunctionOf(c.Algorithm), content);
    HexRoundTrip(digest);
    HexEncode(digest)
  }

  /** SHA-256 and SHA-512 by name; SHA-1 for MD5, "unsupported" and every other value. */
  lemma ComputeLength(c: Checksum, content: seq<byte>, hash: Hasher)
    requires WellFormedHasher(hash)
    ensures c.Algorithm == HashAlgoSHA256 ==> |Compute(c, content, hash)| == 64
    ensures c.Algorithm == HashAlgoSHA512 ==> |Compute(c, content, hash)| == 128
    ensures c.Algorithm !in {HashAlgoSHA256, HashAlgoSHA512} ==>
      Compute(c, content, hash) == HexEncode(hash(Sha1, content)) && |Compute(c, content, hash)| == 40
  {
  }

  /** Checksum.String: the cached Value when there is one, otherwise the digest
      of Content, which is stored in Value. Algorithm and Content never change. */
  function String(c: Checksum, hash: Hasher): (r: (string, Checksum))
    ensures r.1.Algorithm == c.Algorithm && r.1.Content == c.Content
    ensures r.1.Value == r.0
    ensures c.Value != "" ==> r.0 == c.Value
    ensures c.Value == "" ==> HexDecode(r.0) == hash(HashFunctionOf(c.Algorithm), c.Content)
    ensures c.Value == "" ==> r.0 == Compute(c, c.Content, hash)
  {
    if c.Value == "" then
      var v := Compute(c, c.Content, hash);
      (v, c.(Value := v))
    else (c.Value, c)
  }

  /** A second String call answers as the first and changes nothing further. */
  lemma StringIdempotent(c: Checksum, hash: Hasher)
    ensures String(String(c, hash).1, hash) == String(c, hash)
  {
  }

  /** With a proper hasher the first call fills the cache, so later calls do not recompute. */
  lemma StringFillsCache(c: Checksum, hash: Hasher)
    requires WellFormedHasher(hash)
    ensures String(c, hash).1.Value != ""
    ensures String(String(c, hash).1, hash).0 == String(String(c, hash).1, hash).1.Value
  {
    if c.Value == "" {
      assert |Compute(c, c.Content, hash)| >= 40;
    }
  }

  // ---------------------------------------------------------------------
  // Package
  // ---------------------------------------------------------------------

  /** The package abstraction every parser returns. `Packages` holds the
      dependency children by key. */
  datatype Package = Package(
    Version: string,
    Name: string,
    Path: string,
    LocalPath: string,
    Supplier: Supplier,
    PackageURL: string,
    Checksum: Checksum,
    PackageHomePage: string,
    PackageDownloadLocation: string,
    LicenseConcluded: string,
    LicenseDeclared: string,
    CommentsLicense: string,
    Copyright: string,
    PackageComment: string,
    Root: bool,
    Packages: map<string, Package>)

  /** The zero value `meta.Package{}`. */
  function EmptyPackage(): (p: Package)
    ensures !p.Root && p.Name == "" && p.Version == "" && p.Packages == map[]
  {
    Package("", "", "", "", Supplier("", "", "", None), "", Checksum("", [], ""),
            "", "", "", "", "", "", "", false, map[])
  }
}
