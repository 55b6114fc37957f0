/** The stored passphrase hash: printed, split, scanned and checked (utils/crypto.go). */
module Passphrase {
  import opened Text
  import Base64
  import StoreCodec

  const ARGON2_VERSION := 19

  datatype Params = Params(memory: uint32, iterations: uint32, parallelism: byte, saltlen: uint32, keylen: uint32)

  datatype Decoded = Decoded(params: Params, key: bytes, salt: bytes)

  /** argon2.IDKey, kept abstract: passphrase, salt, iterations, memory, parallelism and key length. */
  type KeyDerivation = (bytes, bytes, uint32, uint32, byte, uint32) -> bytes

  /// What fmt.Sscanf does with the verbs used here

  /** The characters fmt counts as space; a line feed is one too, but stops Sscanf. */
  predicate IsSpace(c: char) {
    '\U{0009}' <= c <= '\U{000D}' || c == ' ' || c == '\U{0085}' || c == '\U{00A0}' || c == '\U{1680}'
    || '\U{2000}' <= c <= '\U{200A}' || '\U{2028}' <= c <= '\U{2029}' || c == '\U{202F}' || c == '\U{205F}'
    || c == '\U{3000}'
  }

  function SkipSpace(s: string): Option<string> {
    if s == "" || !IsSpace(s[0]) then Some(s)
    else if s[0] == '\n' then None
    else SkipSpace(s[1..])
  }

  function SkipLiteral(s: string, literal: string): Option<string> {
    if literal <= s then Some(s[|literal|..]) else None
  }

  function DigitsIn(s: string): (n: nat)
    ensures n <= |s| && AllDigits(s[..n])
    ensures n < |s| ==> !IsDigit(s[n])
  {
    if s == "" || !IsDigit(s[0]) then 0 else 1 + DigitsIn(s[1..])
  }

  datatype Scanned = Scanned(number: int, rest: string)

  /** One or more digits denoting a number below `limit`. */
  function ScanDigits(s: string, limit: nat): (r: Option<Scanned>)
    ensures r.Some? ==> 0 <= r.value.number < limit
  {
    var n := DigitsIn(s);
    if n == 0 || NumberOf(s[..n]) >= limit then None else Some(Scanned(NumberOf(s[..n]), s[n..]))
  }

  /** `%d` into an unsigned variable. */
  function ScanUint(s: string, limit: nat): (r: Option<Scanned>)
    ensures r.Some? ==> 0 <= r.value.number < limit
  {
    match SkipSpace(s)
    case None => None
    case Some(t) => ScanDigits(t, limit)
  }

  /** `%d` into an int: a sign may come first. */
  function ScanSigned(t: string): Option<Scanned> {
    if t != "" && t[0] == '-' then
      match ScanDigits(t[1..], 0x8000_0000_0000_0001)
      case None => None
      case Some(d) => Some(Scanned(-d.number, d.rest))
    else if t != "" && t[0] == '+' then ScanDigits(t[1..], 0x8000_0000_0000_0000)
    else ScanDigits(t, 0x8000_0000_0000_0000)
  }

  function ScanInt(s: string): Option<Scanned> {
    match SkipSpace(s)
    case None => None
    case Some(t) => ScanSigned(t)
  }

  function ScanVersion(s: string): Option<int> {
    match SkipLiteral(s, "v=")
    case None => None
    case Some(t) =>
      match ScanInt(t)
      case None => None
      case Some(d) => Some(d.number)
  }

  function ScanCost(s: string, literal: string, limit: nat): (r: Option<Scanned>)
    ensures r.Some? ==> 0 <= r.value.number < limit
  {
    match SkipLiteral(s, literal)
    case None => None
    case Some(t) => ScanUint(t, limit)
  }

  datatype Costs = Costs(memory: uint32, iterations: uint32, parallelism: byte)

  function ScanCosts(s: string): Option<Costs> {
    match ScanCost(s, "m=", 0x1_0000_0000)
    case None => None
    case Some(m) =>
      match ScanCost(m.rest, ",t=", 0x1_0000_0000)
      case None => None
      case Some(t) =>
        match ScanCost(t.rest, ",p=", 0x100)
        case None => None
        case Some(p) => Some(Costs(m.number, t.number, p.number))
  }

  /// The three operations

  function PrintCosts(p: Params): string {
    "m=" + (Decimal(p.memory) + AfterMemory(p))
  }

  function AfterMemory(p: Params): string {
    ",t=" + (Decimal(p.iterations) + AfterIterations(p))
  }

  function AfterIterations(p: Params): string {
    ",p=" + (Decimal(p.parallelism) + "")
  }

  /** What stands between the dollar signs of the format; the text before the first is empty. */
  function Pieces(p: Params, salt: bytes, key: bytes): seq<string> {
    ["", "argon2id", "v=" + Decimal(ARGON2_VERSION), PrintCosts(p),
     Base64.EncodeToString(salt), Base64.EncodeToString(key)]
  }

  function PrintHash(p: Params, salt: bytes, key: bytes): string {
    Join(Pieces(p, salt, key), '$')
  }

  function HashParams(): Params {
    Params(64 * 1024, 3, 2, 16, 32)
  }

  /** The random salt is an input. */
  function HashPassphrase(passphrase: bytes, salt: bytes, argon2: KeyDerivation): string {
    var p := HashParams();
    PrintHash(p, salt, argon2(passphrase, salt, p.iterations, p.memory, p.parallelism, p.keylen))
  }

  function DecodeHash(encoded: string): Option<Decoded> {
    DecodePieces(Split(encoded, '$'))
  }

  function KeyLength(key: bytes): (n: uint32)
    ensures |key| < 0x1_0000_0000 ==> n == |key|
  {
    |key| % 0x1_0000_0000
  }

  function DecodePieces(split: seq<string>): Option<Decoded> {
    if |split| != 6 || ScanVersion(split[2]) != Some(ARGON2_VERSION) then None
    else
      match ScanCosts(split[3])
      case None => None
      case Some(c) =>
        match Base64.DecodeString(split[4])
        case None => None
        case Some(salt) =>
          match Base64.DecodeString(split[5])
          case None => None
          case Some(key) =>
            Some(Decoded(Params(c.memory, c.iterations, c.parallelism, 0, KeyLength(key)), key, salt))
  }

  predicate Admits(d: Decoded, passphrase: bytes, argon2: KeyDerivation) {
    d.key == argon2(passphrase, d.salt, d.params.iterations, d.params.memory, d.params.parallelism, d.params.keylen)
  }

  predicate VerifyPassphrase(encoded: string, passphrase: bytes, argon2: KeyDerivation) {
    var d := DecodeHash(encoded);
    d.Some? && Admits(d.value, passphrase, argon2)
  }

  /// Scanning what was printed

  lemma {:induction false} DigitsInPrefix(digits: string, rest: string)
    requires AllDigits(digits)
    requires rest != "" ==> !IsDigit(rest[0])
    ensures DigitsIn(digits + rest) == |digits|
  {
    if digits == "" {
      assert digits + rest == rest;
    } else {
      assert (digits + rest)[1..] == digits[1..] + rest;
      DigitsInPrefix(digits[1..], rest);
    }
  }

  lemma ScanAny(n: nat, rest: string, limit: nat)
    requires rest != "" ==> !IsDigit(rest[0])
    ensures ScanDigits(Decimal(n) + rest, limit) == if n < limit then Some(Scanned(n, rest)) else None
    ensures IsDigit((Decimal(n) + rest)[0])
  {
    var s := Decimal(n) + rest;
    DigitsInPrefix(Decimal(n), rest);
    DecimalDenotes(n);
    assert s[..|Decimal(n)|] == Decimal(n) && s[|Decimal(n)|..] == rest;
    assert s[0] == Decimal(n)[0];
  }

  lemma ScanPrinted(n: nat, rest: string, limit: nat)
    requires n < limit
    requires rest != "" ==> !IsDigit(rest[0])
    ensures ScanDigits(Decimal(n) + rest, limit) == Some(Scanned(n, rest))
    ensures SkipSpace(Decimal(n) + rest) == Some(Decimal(n) + rest)
    ensures IsDigit((Decimal(n) + rest)[0])
  {
    ScanAny(n, rest, limit);
  }

  lemma ScanPrintedCost(literal: string, n: nat, rest: string, limit: nat)
    requires n < limit
    requires rest != "" ==> !IsDigit(rest[0])
    ensures ScanCost(literal + (Decimal(n) + rest), literal, limit) == Some(Scanned(n, rest))
  {
    ScanPrinted(n, rest, limit);
    var s := literal + (Decimal(n) + rest);
    assert literal <= s && s[|literal|..] == Decimal(n) + rest;
  }

  lemma ScanPrintedVersion()
    ensures ScanVersion("v=" + Decimal(ARGON2_VERSION)) == Some(ARGON2_VERSION)
  {
    ScanPrinted(ARGON2_VERSION, "", 0x8000_0000_0000_0000);
    var d := Decimal(ARGON2_VERSION);
    assert d + "" == d;
    assert ("v=" + d)[2..] == d;
  }

  lemma ScanPrintedCosts(p: Params)
    ensures ScanCosts(PrintCosts(p)) == Some(Costs(p.memory, p.iterations, p.parallelism))
  {
    ScanPrintedCost(",p=", p.parallelism, "", 0x100);
    ScanPrintedCost(",t=", p.iterations, AfterIterations(p), 0x1_0000_0000);
    ScanPrintedCost("m=", p.memory, AfterMemory(p), 0x1_0000_0000);
  }

  /** Blanks before a number are skipped, a line feed among them apart... */
  lemma {:induction false} SkipsBlanks(blanks: string, rest: string)
    requires forall i :: 0 <= i < |blanks| ==> IsSpace(blanks[i]) && blanks[i] != '\n'
    requires rest != "" && !IsSpace(rest[0])
    ensures SkipSpace(blanks + rest) == Some(rest)
  {
    if blanks == "" {
      assert blanks + rest == rest;
    } else {
      assert (blanks + rest)[1..] == blanks[1..] + rest;
      SkipsBlanks(blanks[1..], rest);
    }
  }

  lemma {:induction false} LineFeedStops(blanks: string, rest: string)
    requires forall i :: 0 <= i < |blanks| ==> IsSpace(blanks[i]) && blanks[i] != '\n'
    ensures SkipSpace(blanks + ("\n" + rest)) == None
  {
    if blanks == "" {
      assert blanks + ("\n" + rest) == "\n" + rest;
    } else {
      assert (blanks + ("\n" + rest))[1..] == blanks[1..] + ("\n" + rest);
      LineFeedStops(blanks[1..], rest);
    }
  }

  /** The literals of the formats must be there, and a line feed before a number is an error. */
  lemma ScansStrictly(s: string, literal: string, limit: nat, blanks: string, rest: string)
    requires forall i :: 0 <= i < |blanks| ==> IsSpace(blanks[i]) && blanks[i] != '\n'
    ensures ScanCost(s, literal, limit).Some? ==> literal <= s
    ensures ScanVersion(s).Some? ==> "v=" <= s
    ensures ScanCosts(s).Some? ==> "m=" <= s
    ensures ScanCost(literal + (blanks + ("\n" + rest)), literal, limit) == None
    ensures ScanVersion("v=" + (blanks + ("\n" + rest))) == None
  {
    LineFeedStops(blanks, rest);
    AfterLiteral(literal, blanks + ("\n" + rest));
    AfterLiteral("v=", blanks + ("\n" + rest));
  }

  lemma ScanBlankCost(literal: string, blanks: string, n: nat, rest: string, limit: nat)
    requires forall i :: 0 <= i < |blanks| ==> IsSpace(blanks[i]) && blanks[i] != '\n'
    requires rest != "" ==> !IsDigit(rest[0])
    ensures ScanCost(literal + (blanks + (Decimal(n) + rest)), literal, limit)
         == if n < limit then Some(Scanned(n, rest)) else None
  {
    var t := Decimal(n) + rest;
    var s := literal + (blanks + t);
    assert literal <= s && s[|literal|..] == blanks + t;
    ScanAny(n, rest, limit);
    SkipsBlanks(blanks, t);
  }

  /** ... a number out of range is refused, and what stands behind the last one is not looked at. */
  lemma ScansLeniently(m: nat, t: nat, p: nat, b1: string, b2: string, b3: string, rest: string)
    requires forall i :: 0 <= i < |b1| ==> IsSpace(b1[i]) && b1[i] != '\n'
    requires forall i :: 0 <= i < |b2| ==> IsSpace(b2[i]) && b2[i] != '\n'
    requires forall i :: 0 <= i < |b3| ==> IsSpace(b3[i]) && b3[i] != '\n'
    requires rest != "" ==> !IsDigit(rest[0])
    ensures var third := ",p=" + (b3 + (Decimal(p) + rest));
      var second := ",t=" + (b2 + (Decimal(t) + third));
      ScanCosts("m=" + (b1 + (Decimal(m) + second)))
      == if m < 0x1_0000_0000 && t < 0x1_0000_0000 && p < 0x100 then Some(Costs(m, t, p)) else None
  {
    var third := ",p=" + (b3 + (Decimal(p) + rest));
    var second := ",t=" + (b2 + (Decimal(t) + third));
    ScanBlankCost(",p=", b3, p, rest, 0x100);
    ScanBlankCost(",t=", b2, t, third, 0x1_0000_0000);
    ScanBlankCost("m=", b1, m, second, 0x1_0000_0000);
  }

  function WithSign(sign: string, number: int): int {
    if sign == "-" then -number else number
  }

  lemma ScansNegative(v: nat, digits: string, rest: string)
    requires digits == Decimal(v) + rest && (rest != "" ==> !IsDigit(rest[0]))
    ensures ScanSigned("-" + digits)
         == if StoreCodec.IsInt64(-(v as int)) then Some(Scanned(-(v as int), rest)) else None
  {
    ScanAny(v, rest, 0x8000_0000_0000_0001);
    assert ("-" + digits)[1..] == digits;
  }

  lemma ScansPositive(sign: string, v: nat, digits: string, rest: string)
    requires sign == "" || sign == "+"
    requires digits == Decimal(v) + rest && (rest != "" ==> !IsDigit(rest[0]))
    ensures ScanSigned(sign + digits) == if StoreCodec.IsInt64(v) then Some(Scanned(v, rest)) else None
  {
    ScanAny(v, rest, 0x8000_0000_0000_0000);
    if sign == "" {
      assert sign + digits == digits;
    } else {
      assert (sign + digits)[1..] == digits;
    }
  }

  lemma ScansSigned(sign: string, v: nat, digits: string, rest: string)
    requires sign == "" || sign == "+" || sign == "-"
    requires digits == Decimal(v) + rest && (rest != "" ==> !IsDigit(rest[0]))
    ensures ScanSigned(sign + digits)
         == if StoreCodec.IsInt64(WithSign(sign, v)) then Some(Scanned(WithSign(sign, v), rest)) else None
  {
    if sign == "-" { ScansNegative(v, digits, rest); } else { ScansPositive(sign, v, digits, rest); }
  }

  /** The version is a signed number, read in the same way. */
  lemma ScansVersionLeniently(v: nat, blanks: string, sign: string, rest: string)
    requires forall i :: 0 <= i < |blanks| ==> IsSpace(blanks[i]) && blanks[i] != '\n'
    requires sign == "" || sign == "+" || sign == "-"
    requires rest != "" ==> !IsDigit(rest[0])
    ensures ScanVersion("v=" + (blanks + (sign + (Decimal(v) + rest))))
         == if StoreCodec.IsInt64(WithSign(sign, v)) then Some(WithSign(sign, v)) else None
  {
    var digits := Decimal(v) + rest;
    var t := sign + digits;
    assert digits[0] == Decimal(v)[0] && IsDigit(digits[0]);
    assert t[0] == (if sign == "" then digits[0] else sign[0]);
    SkipsBlanks(blanks, t);
    ScansSigned(sign, v, digits, rest);
    AfterLiteral("v=", blanks + t);
  }

  lemma AfterLiteral(literal: string, t: string)
    ensures SkipLiteral(literal + t, literal) == Some(t)
  {
    assert literal <= literal + t && (literal + t)[|literal|..] == t;
  }

  lemma DigitsHoldNo(s: string, c: char)
    requires AllDigits(s) && !IsDigit(c)
    ensures c !in s
  {
  }

  lemma NoDollarInCosts(p: Params)
    ensures '$' !in PrintCosts(p)
  {
    DigitsHoldNo(Decimal(p.memory), '$');
    DigitsHoldNo(Decimal(p.iterations), '$');
    DigitsHoldNo(Decimal(p.parallelism), '$');
    assert '$' !in AfterIterations(p);
    assert '$' !in AfterMemory(p);
  }

  lemma PrintedPieces(p: Params, salt: bytes, key: bytes)
    ensures Split(PrintHash(p, salt, key), '$') == Pieces(p, salt, key)
  {
    Base64.RoundTrip(salt);
    Base64.RoundTrip(key);
    NoDollarInCosts(p);
    DigitsHoldNo(Decimal(ARGON2_VERSION), '$');
    SplitJoin(Pieces(p, salt, key), '$');
  }

  /// Main results

  lemma DecodesPieces(p: Params, salt: bytes, key: bytes, pieces: seq<string>)
    requires |pieces| == 6 && ScanVersion(pieces[2]) == Some(ARGON2_VERSION)
    requires ScanCosts(pieces[3]) == Some(Costs(p.memory, p.iterations, p.parallelism))
    requires Base64.DecodeString(pieces[4]) == Some(salt) && Base64.DecodeString(pieces[5]) == Some(key)
    ensures DecodePieces(pieces) == Some(Decoded(p.(saltlen := 0, keylen := KeyLength(key)), key, salt))
  {
  }

  lemma VersionPiece(p: Params, salt: bytes, key: bytes)
    ensures |Pieces(p, salt, key)| == 6 && ScanVersion(Pieces(p, salt, key)[2]) == Some(ARGON2_VERSION)
  {
    ScanPrintedVersion();
  }

  lemma CostsPiece(p: Params, salt: bytes, key: bytes)
    ensures ScanCosts(Pieces(p, salt, key)[3]) == Some(Costs(p.memory, p.iterations, p.parallelism))
  {
    ScanPrintedCosts(p);
  }

  lemma TextPieces(p: Params, salt: bytes, key: bytes)
    ensures Base64.DecodeString(Pieces(p, salt, key)[4]) == Some(salt)
    ensures Base64.DecodeString(Pieces(p, salt, key)[5]) == Some(key)
  {
    Base64.RoundTrip(salt);
    Base64.RoundTrip(key);
  }

  lemma SplitsDecode(encoded: string, pieces: seq<string>)
    requires Split(encoded, '$') == pieces
    ensures DecodeHash(encoded) == DecodePieces(pieces)
  {
  }

  /** Decoding a printed hash gives back every parameter, the salt and the key. */
  lemma DecodePrintedHash(p: Params, salt: bytes, key: bytes)
    ensures DecodeHash(PrintHash(p, salt, key))
         == Some(Decoded(p.(saltlen := 0, keylen := KeyLength(key)), key, salt))
  {
    PrintedPieces(p, salt, key);
    VersionPiece(p, salt, key);
    CostsPiece(p, salt, key);
    TextPieces(p, salt, key);
    DecodesPieces(p, salt, key, Pieces(p, salt, key));
    SplitsDecode(PrintHash(p, salt, key), Pieces(p, salt, key));
  }

  /** Exactly what decodes: six pieces, the version 19, three costs in range, and two strict base64 texts,
      which are those of the salt and the key returned. The first two pieces are not looked at. */
  lemma DecodesExactly(encoded: string)
    ensures var split := Split(encoded, '$');
      var r := DecodeHash(encoded);
      && Join(split, '$') == encoded
      && (r.Some? <==> |split| == 6 && ScanVersion(split[2]) == Some(19) && ScanCosts(split[3]).Some?
                       && Base64.DecodeString(split[4]).Some? && Base64.DecodeString(split[5]).Some?)
      && (r.Some? ==>
            && Base64.WithoutLineEnds(split[4]) == Base64.EncodeToString(r.value.salt)
            && Base64.WithoutLineEnds(split[5]) == Base64.EncodeToString(r.value.key)
            && var c := ScanCosts(split[3]).value;
            && r.value.params == Params(c.memory, c.iterations, c.parallelism, 0, KeyLength(r.value.key)))
  {
    var split := Split(encoded, '$');
    JoinSplit(encoded, '$');
    if DecodeHash(encoded).Some? {
      Base64.DecodesExactlyEncodings(split[4], DecodeHash(encoded).value.salt);
      Base64.DecodesExactlyEncodings(split[5], DecodeHash(encoded).value.key);
    }
  }

  /** Exactly what is accepted: the stored hash decodes, and the passphrase derives its key with its own
      salt and costs. A hash that does not decode admits nobody. */
  lemma AcceptsExactly(encoded: string, tried: bytes, argon2: KeyDerivation)
    ensures VerifyPassphrase(encoded, tried, argon2)
       <==> DecodeHash(encoded).Some?
            && var (key, salt, p) := (DecodeHash(encoded).value.key, DecodeHash(encoded).value.salt,
                                      DecodeHash(encoded).value.params);
               argon2(tried, salt, p.iterations, p.memory, p.parallelism, p.keylen) == key
  {
  }

  lemma VerifyDecoded(encoded: string, d: Decoded, tried: bytes, argon2: KeyDerivation)
    requires DecodeHash(encoded) == Some(d)
    ensures VerifyPassphrase(encoded, tried, argon2) == Admits(d, tried, argon2)
  {
  }

  lemma VerifyPrinted(encoded: string, p: Params, salt: bytes, key: bytes, tried: bytes, argon2: KeyDerivation)
    requires encoded == PrintHash(p, salt, key) && |key| == p.keylen
    ensures VerifyPassphrase(encoded, tried, argon2)
       <==> argon2(tried, salt, p.iterations, p.memory, p.parallelism, p.keylen) == key
  {
    var d := Decoded(p.(saltlen := 0, keylen := KeyLength(key)), key, salt);
    DecodePrintedHash(p, salt, key);
    VerifyDecoded(encoded, d, tried, argon2);
  }

  lemma DecimalStep(n: nat, front: string)
    requires n >= 10 && Decimal(n / 10) == front
    ensures Decimal(n) == front + [Digit(n % 10)]
  {
  }

  lemma SmallDecimals()
    ensures Decimal(19) == "19" && Decimal(65536) == "65536" && Decimal(3) == "3" && Decimal(2) == "2"
  {
    DecimalStep(19, "1");
    DecimalStep(65, "6");
    DecimalStep(655, "65");
    DecimalStep(6553, "655");
    DecimalStep(65536, "6553");
  }

  lemma CostsRead()
    ensures PrintCosts(HashParams()) == "m=65536,t=3,p=2"
  {
    SmallDecimals();
    assert AfterIterations(HashParams()) == ",p=2";
    assert AfterMemory(HashParams()) == ",t=3,p=2";
    assert PrintCosts(HashParams()) == "m=" + ("65536" + ",t=3,p=2");
  }

  lemma VersionRead()
    ensures "v=" + Decimal(ARGON2_VERSION) == "v=19"
  {
    SmallDecimals();
  }

  lemma PiecesRead(salt: bytes, key: bytes)
    ensures Pieces(HashParams(), salt, key)
         == ["", "argon2id", "v=19", "m=65536,t=3,p=2", Base64.EncodeToString(salt), Base64.EncodeToString(key)]
  {
    CostsRead();
    VersionRead();
  }

  /** The stored text, piece by piece: algorithm, version and costs are fixed, then come the salt and the
      key derived with just those costs, in base64. */
  lemma PrintedHashReads(passphrase: bytes, salt: bytes, argon2: KeyDerivation)
    ensures Split(HashPassphrase(passphrase, salt, argon2), '$')
         == ["", "argon2id", "v=19", "m=65536,t=3,p=2", Base64.EncodeToString(salt),
             Base64.EncodeToString(argon2(passphrase, salt, 3, 65536, 2, 32))]
  {
    PrintedPieces(HashParams(), salt, argon2(passphrase, salt, 3, 65536, 2, 32));
    PiecesRead(salt, argon2(passphrase, salt, 3, 65536, 2, 32));
  }

  /** A passphrase is accepted exactly when it derives the key of the wallet's own passphrase. */
  lemma VerifyHashed(passphrase: bytes, tried: bytes, salt: bytes, argon2: KeyDerivation)
    requires |argon2(passphrase, salt, 3, 65536, 2, 32)| == 32
    ensures VerifyPassphrase(HashPassphrase(passphrase, salt, argon2), tried, argon2)
       <==> argon2(tried, salt, 3, 65536, 2, 32) == argon2(passphrase, salt, 3, 65536, 2, 32)
  {
    var key := argon2(passphrase, salt, 3, 65536, 2, 32);
    VerifyPrinted(HashPassphrase(passphrase, salt, argon2), HashParams(), salt, key, tried, argon2);
  }

  lemma OwnPassphraseAccepted(passphrase: bytes, salt: bytes, argon2: KeyDerivation)
    requires |argon2(passphrase, salt, 3, 65536, 2, 32)| == 32
    ensures VerifyPassphrase(HashPassphrase(passphrase, salt, argon2), passphrase, argon2)
  {
    VerifyHashed(passphrase, passphrase, salt, argon2);
  }
}
