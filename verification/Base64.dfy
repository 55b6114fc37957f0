/** Standard base64 without padding, decoded strictly (RFC 4648, sections 3.2, 3.5 and 4). */
module Base64 {
  import opened Text

  type sextet = x: int | 0 <= x < 64

  function Letter(x: sextet): char {
    if x < 26 then 'A' + x as char
    else if x < 52 then 'a' + (x - 26) as char
    else if x < 62 then '0' + (x - 52) as char
    else if x == 62 then '+' else '/'
  }

  predicate IsLetter(c: char) {
    'A' <= c <= 'Z' || 'a' <= c <= 'z' || '0' <= c <= '9' || c == '+' || c == '/'
  }

  function Sextet(c: char): sextet
    requires IsLetter(c)
  {
    if 'A' <= c <= 'Z' then (c - 'A') as int
    else if 'a' <= c <= 'z' then (c - 'a') as int + 26
    else if '0' <= c <= '9' then (c - '0') as int + 52
    else if c == '+' then 62 else 63
  }

  lemma AlphabetIsOneToOne(x: sextet, c: char)
    ensures IsLetter(Letter(x)) && Sextet(Letter(x)) == x
    ensures IsLetter(c) ==> Letter(Sextet(c)) == c
  {
  }

  lemma CapitalReads(x: sextet)
    requires x < 26
    ensures Letter(x) == "ABCDEFGHIJKLMNOPQRSTUVWXYZ"[x]
  {
  }

  lemma SmallLetterReads(x: sextet)
    requires 26 <= x < 52
    ensures Letter(x) == "abcdefghijklmnopqrstuvwxyz"[x - 26]
  {
  }

  lemma DigitReads(x: sextet)
    requires 52 <= x < 62
    ensures Letter(x) == "0123456789"[x - 52]
  {
  }

  /** Table 1 of RFC 4648. */
  lemma AlphabetReads(x: sextet)
    ensures x < 26 ==> Letter(x) == "ABCDEFGHIJKLMNOPQRSTUVWXYZ"[x]
    ensures 26 <= x < 52 ==> Letter(x) == "abcdefghijklmnopqrstuvwxyz"[x - 26]
    ensures 52 <= x < 62 ==> Letter(x) == "0123456789"[x - 52]
    ensures Letter(62) == '+' && Letter(63) == '/'
  {
    if x < 26 {
      CapitalReads(x);
    } else if x < 52 {
      SmallLetterReads(x);
    } else if x < 62 {
      DigitReads(x);
    }
  }

  function EncodeSextets(b: bytes): (q: seq<sextet>) {
    if |b| == 0 then []
    else if |b| == 1 then [b[0] / 4, b[0] % 4 * 16]
    else if |b| == 2 then [b[0] / 4, b[0] % 4 * 16 + b[1] / 16, b[1] % 16 * 4]
    else [b[0] / 4, b[0] % 4 * 16 + b[1] / 16, b[1] % 16 * 4 + b[2] / 64, b[2] % 64] + EncodeSextets(b[3..])
  }

  /** A number written with one more digit in base 64, or in base 256. */
  function In64(high: int, low: sextet): int { high * 64 + low }

  function In256(high: int, low: byte): int { high * 256 + low }

  /** A quantum of three bytes and its four sextets are the same 24 bits; a short one is filled up with
      zero bits. */
  lemma QuantumDenotes(b: bytes)
    ensures var q := EncodeSextets(b);
      && (|b| == 1 ==> |q| == 2 && In64(q[0], q[1]) == In256(0, b[0]) * 16)
      && (|b| == 2 ==> |q| == 3 && In64(In64(q[0], q[1]), q[2]) == In256(b[0], b[1]) * 4)
      && (|b| >= 3 ==>
            && |q| >= 4 && q[4..] == EncodeSextets(b[3..])
            && In64(In64(In64(q[0], q[1]), q[2]), q[3]) == In256(In256(b[0], b[1]), b[2]))
  {
  }

  function FirstByte(p: sextet, q: sextet): byte { p * 4 + q / 16 }

  function SecondByte(p: sextet, q: sextet): byte { p % 16 * 16 + q / 4 }

  function ThirdByte(p: sextet, q: sextet): byte { p % 4 * 64 + q }

  /** None stands for a corrupt input: a lone last letter, or non-zero bits after the last byte. */
  function DecodeSextets(q: seq<sextet>): Option<bytes> {
    if |q| == 0 then Some([])
    else if |q| == 1 then None
    else if |q| == 2 then
      if q[1] % 16 == 0 then Some([FirstByte(q[0], q[1])]) else None
    else if |q| == 3 then
      if q[2] % 4 == 0 then Some([FirstByte(q[0], q[1]), SecondByte(q[1], q[2])]) else None
    else
      match DecodeSextets(q[4..])
      case None => None
      case Some(rest) => Some([FirstByte(q[0], q[1]), SecondByte(q[1], q[2]), ThirdByte(q[2], q[3])] + rest)
  }

  function Letters(q: seq<sextet>): (s: string)
    ensures |s| == |q|
  {
    seq(|q|, i requires 0 <= i < |q| => Letter(q[i]))
  }

  function EncodeToString(b: bytes): string {
    Letters(EncodeSextets(b))
  }

  /** The decoder skips line ends wherever they stand. */
  function WithoutLineEnds(s: string): (t: string)
    ensures forall i :: 0 <= i < |t| ==> t[i] != '\r' && t[i] != '\n'
  {
    if s == "" then ""
    else if s[0] == '\r' || s[0] == '\n' then WithoutLineEnds(s[1..])
    else [s[0]] + WithoutLineEnds(s[1..])
  }

  /** Exactly carriage returns and line feeds are left out. */
  lemma {:induction false} LineEndsSkipped(before: string, c: char, after: string)
    ensures WithoutLineEnds(before + [c] + after)
         == WithoutLineEnds(before) + (if c == '\r' || c == '\n' then "" else [c]) + WithoutLineEnds(after)
    decreases |before|
  {
    var s := before + [c] + after;
    if before == "" {
      assert s == [c] + after && s[1..] == after;
    } else {
      assert s[0] == before[0] && s[1..] == before[1..] + [c] + after;
      LineEndsSkipped(before[1..], c, after);
    }
  }

  predicate AllLetters(s: string) {
    forall i :: 0 <= i < |s| ==> IsLetter(s[i])
  }

  function Sextets(s: string): (q: seq<sextet>)
    requires AllLetters(s)
    ensures |q| == |s|
  {
    seq(|s|, i requires 0 <= i < |s| => Sextet(s[i]))
  }

  function DecodeString(s: string): Option<bytes> {
    var t := WithoutLineEnds(s);
    if AllLetters(t) then DecodeSextets(Sextets(t)) else None
  }

  lemma QuantumUndone(x: byte, y: byte, z: byte)
    ensures FirstByte(x / 4, x % 4 * 16 + y / 16) == x
    ensures SecondByte(x % 4 * 16 + y / 16, y % 16 * 4 + z / 64) == y
    ensures ThirdByte(y % 16 * 4 + z / 64, z % 64) == z
  {
  }

  lemma PaddedSextet(x: byte)
    ensures x % 4 * 16 % 16 == 0 && x % 4 * 16 / 16 == x % 4
    ensures x % 16 * 4 % 4 == 0 && x % 16 * 4 / 4 == x % 16
  {
  }

  lemma LastByteUndone(x: byte)
    ensures DecodeSextets([x / 4, x % 4 * 16]) == Some([x])
  {
    PaddedSextet(x);
  }

  lemma LastTwoBytesUndone(x: byte, y: byte)
    ensures DecodeSextets([x / 4, x % 4 * 16 + y / 16, y % 16 * 4]) == Some([x, y])
  {
    PaddedSextet(y);
    assert FirstByte(x / 4, x % 4 * 16 + y / 16) == x by { QuantumUndone(x, y, 0); }
    assert (x % 4 * 16 + y / 16) % 16 == y / 16;
  }

  lemma {:induction false} DecodeUndoesEncode(b: bytes)
    ensures DecodeSextets(EncodeSextets(b)) == Some(b)
  {
    if |b| == 1 {
      LastByteUndone(b[0]);
      assert b == [b[0]];
    } else if |b| == 2 {
      LastTwoBytesUndone(b[0], b[1]);
      assert b == [b[0], b[1]];
    } else if |b| >= 3 {
      QuantumUndone(b[0], b[1], b[2]);
      DecodeUndoesEncode(b[3..]);
      assert EncodeSextets(b)[4..] == EncodeSextets(b[3..]);
      assert b == [b[0], b[1], b[2]] + b[3..];
    }
  }

  lemma QuantumRedone(p: sextet, q: sextet, r: sextet, s: sextet)
    ensures FirstByte(p, q) / 4 == p
    ensures FirstByte(p, q) % 4 * 16 + SecondByte(q, r) / 16 == q
    ensures SecondByte(q, r) % 16 * 4 + ThirdByte(r, s) / 64 == r
    ensures ThirdByte(r, s) % 64 == s
  {
  }

  lemma LastQuantumRedone(p: sextet, q: sextet, r: sextet)
    ensures FirstByte(p, q) / 4 == p
    ensures q % 16 == 0 ==> FirstByte(p, q) % 4 * 16 == q
    ensures FirstByte(p, q) % 4 * 16 + SecondByte(q, r) / 16 == q
    ensures r % 4 == 0 ==> SecondByte(q, r) % 16 * 4 == r
  {
  }

  lemma {:induction false} EncodeUndoesDecode(q: seq<sextet>)
    requires DecodeSextets(q).Some?
    ensures EncodeSextets(DecodeSextets(q).value) == q
  {
    var b := DecodeSextets(q).value;
    if |q| == 2 {
      LastQuantumRedone(q[0], q[1], 0);
      assert q == [q[0], q[1]] && b == [FirstByte(q[0], q[1])];
    } else if |q| == 3 {
      LastQuantumRedone(q[0], q[1], q[2]);
      assert q == [q[0], q[1], q[2]];
    } else if |q| >= 4 {
      QuantumRedone(q[0], q[1], q[2], q[3]);
      EncodeUndoesDecode(q[4..]);
      assert b[3..] == DecodeSextets(q[4..]).value;
      assert q == [q[0], q[1], q[2], q[3]] + q[4..];
    }
  }

  lemma LettersAreLetters(q: seq<sextet>)
    ensures AllLetters(Letters(q)) && Sextets(Letters(q)) == q
    ensures '$' !in Letters(q)
  {
    forall i | 0 <= i < |q| ensures IsLetter(Letters(q)[i]) && Sextet(Letters(q)[i]) == q[i] {
      AlphabetIsOneToOne(q[i], 'A');
    }
  }

  lemma LettersOfSextets(s: string)
    requires AllLetters(s)
    ensures Letters(Sextets(s)) == s
  {
    forall i | 0 <= i < |s| ensures Letters(Sextets(s))[i] == s[i] {
      AlphabetIsOneToOne(0, s[i]);
    }
  }

  lemma {:induction false} NoLineEndsToSkip(s: string)
    requires AllLetters(s)
    ensures WithoutLineEnds(s) == s
  {
    if s != "" {
      assert IsLetter(s[0]);
      NoLineEndsToSkip(s[1..]);
    }
  }

  /** A string decodes to `b` exactly when, line ends apart, it is the encoding of `b`. */
  lemma DecodesExactlyEncodings(s: string, b: bytes)
    ensures DecodeString(s) == Some(b) <==> WithoutLineEnds(s) == EncodeToString(b)
  {
    var t := WithoutLineEnds(s);
    if DecodeString(s) == Some(b) {
      EncodeUndoesDecode(Sextets(t));
      LettersOfSextets(t);
    }
    if t == EncodeToString(b) {
      LettersAreLetters(EncodeSextets(b));
      DecodeUndoesEncode(b);
    }
  }

  lemma RoundTrip(b: bytes)
    ensures DecodeString(EncodeToString(b)) == Some(b)
    ensures '$' !in EncodeToString(b)
  {
    LettersAreLetters(EncodeSextets(b));
    NoLineEndsToSkip(EncodeToString(b));
    DecodesExactlyEncodings(EncodeToString(b), b);
  }
}
