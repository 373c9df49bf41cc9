/** The cursor's transport: `btoa`, the URL-safe replacement of two digits, and padding removed
    (section 5 of RFC 4648); and back through `atob`, which accepts missing padding. */
module Base64Url {
  import opened Options

  newtype Byte = x: int | 0 <= x < 256
  newtype Sextet = x: int | 0 <= x < 64

  function Sextets(b: seq<Byte>): seq<Sextet> {
    if |b| == 0 then []
    else if |b| == 1 then [(b[0] / 4) as Sextet, (b[0] % 4) as Sextet * 16]
    else
      var front := [(b[0] / 4) as Sextet, (b[0] % 4) as Sextet * 16 + (b[1] / 16) as Sextet];
      if |b| == 2 then front + [(b[1] % 16) as Sextet * 4]
      else front + [(b[1] % 16) as Sextet * 4 + (b[2] / 64) as Sextet, (b[2] % 64) as Sextet] + Sextets(b[3..])
  }

  /** Whole groups of four digits, then two or three left over; a single one is an error. */
  function Bytes(s: seq<Sextet>): Option<seq<Byte>> {
    if |s| == 0 then Some([])
    else if |s| == 1 then None
    else
      var b0 := s[0] as Byte * 4 + (s[1] / 16) as Byte;
      if |s| == 2 then Some([b0])
      else
        var b1 := (s[1] % 16) as Byte * 16 + (s[2] / 4) as Byte;
        if |s| == 3 then Some([b0, b1])
        else
          var b2 := (s[2] % 4) as Byte * 64 + s[3] as Byte;
          match Bytes(s[4..])
          case None => None
          case Some(rest) => Some([b0, b1, b2] + rest)
  }

  /** Digits of the standard alphabet. */
  function Digit(n: Sextet): char {
    if n < 26 then 'A' + n as char
    else if n < 52 then 'a' + (n - 26) as char
    else if n < 62 then '0' + (n - 52) as char
    else if n == 62 then '+' else '/'
  }

  function DigitValue(c: char): Option<Sextet> {
    if 'A' <= c <= 'Z' then Some((c as int - 'A' as int) as Sextet)
    else if 'a' <= c <= 'z' then Some((c as int - 'a' as int + 26) as Sextet)
    else if '0' <= c <= '9' then Some((c as int - '0' as int + 52) as Sextet)
    else if c == '+' then Some(62) else if c == '/' then Some(63) else None
  }

  function Digits(s: seq<Sextet>): string { seq(|s|, i requires 0 <= i < |s| => Digit(s[i])) }

  function DigitValues(t: string): Option<seq<Sextet>> {
    if |t| == 0 then Some([])
    else
      match (DigitValue(t[0]), DigitValues(t[1..]))
      case (Some(v), Some(rest)) => Some([v] + rest)
      case _ => None
  }

  function Padding(length: nat): string { if length % 3 == 0 then "" else if length % 3 == 1 then "==" else "=" }

  function Btoa(b: seq<Byte>): string { Digits(Sextets(b)) + Padding(|b|) }

  function Atob(t: string): Option<seq<Byte>> {
    match DigitValues(t)
    case None => None
    case Some(s) => Bytes(s)
  }

  function ReplaceAll(t: string, from: char, to: char): string { seq(|t|, i requires 0 <= i < |t| => if t[i] == from then to else t[i]) }

  function StripPadding(t: string): string {
    if |t| > 0 && t[|t| - 1] == '=' then StripPadding(t[..|t| - 1]) else t
  }

  function Encode(b: seq<Byte>): string { StripPadding(ReplaceAll(ReplaceAll(Btoa(b), '+', '-'), '/', '_')) }

  function Decode(t: string): Option<seq<Byte>> { Atob(ReplaceAll(ReplaceAll(t, '-', '+'), '_', '/')) }

  predicate UrlSafe(c: char) { 'A' <= c <= 'Z' || 'a' <= c <= 'z' || '0' <= c <= '9' || c == '-' || c == '_' }

  // ---------- round trip ----------

  lemma {:induction false} BytesOfSextets(b: seq<Byte>)
    ensures Bytes(Sextets(b)) == Some(b)
  {
    if |b| >= 3 {
      BytesOfSextets(b[3..]);
      var s := Sextets(b);
      assert s[4..] == Sextets(b[3..]);
      assert b == [b[0], b[1], b[2]] + b[3..];
    } else if |b| == 2 {
      assert b == [b[0], b[1]];
    } else if |b| == 1 {
      assert b == [b[0]];
    }
  }

  /** The digit with the two URL-safe replacements. */
  function UrlDigit(n: Sextet): char { if n == 62 then '-' else if n == 63 then '_' else Digit(n) }

  function UrlDigits(s: seq<Sextet>): string { seq(|s|, i requires 0 <= i < |s| => UrlDigit(s[i])) }

  lemma DigitFacts(n: Sextet)
    ensures DigitValue(Digit(n)) == Some(n)
    ensures UrlSafe(UrlDigit(n)) && UrlDigit(n) != '='
    ensures Digit(n) != '-' && Digit(n) != '_' && Digit(n) != '='
  {
  }

  lemma {:induction false} StripKeeps(t: string, n: nat)
    requires n <= |t| && (n > 0 ==> t[n - 1] != '=') && forall i | n <= i < |t| :: t[i] == '='
    ensures StripPadding(t) == t[..n]
  {
    if n < |t| {
      StripKeeps(t[..|t| - 1], n);
      assert t[..|t| - 1][..n] == t[..n];
    } else {
      assert t[..n] == t;
    }
  }

  /** The cursor text consists of the URL-safe digits of the sextets and nothing else. */
  lemma EncodeIsUrlDigits(b: seq<Byte>)
    ensures Encode(b) == UrlDigits(Sextets(b))
  {
    var s := Sextets(b);
    var t := ReplaceAll(ReplaceAll(Btoa(b), '+', '-'), '/', '_');
    forall i | 0 <= i < |s| ensures t[i] == UrlDigit(s[i]) { DigitFacts(s[i]); }
    forall i | |s| <= i < |t| ensures t[i] == '=' { assert Btoa(b)[i] == Padding(|b|)[i - |s|]; }
    if |s| > 0 { DigitFacts(s[|s| - 1]); }
    StripKeeps(t, |s|);
    assert t[..|s|] == UrlDigits(s);
  }

  lemma {:induction false} DigitValuesOfDigits(s: seq<Sextet>)
    ensures DigitValues(Digits(s)) == Some(s)
  {
    if |s| > 0 {
      DigitFacts(s[0]);
      assert Digits(s)[1..] == Digits(s[1..]);
      DigitValuesOfDigits(s[1..]);
      assert s == [s[0]] + s[1..];
    } else {
      assert Digits(s) == [];
    }
  }

  lemma DecodeEncode(b: seq<Byte>)
    ensures Decode(Encode(b)) == Some(b)
  {
    var s := Sextets(b);
    EncodeIsUrlDigits(b);
    var back := ReplaceAll(ReplaceAll(UrlDigits(s), '-', '+'), '_', '/');
    forall i | 0 <= i < |s| ensures back[i] == Digit(s[i]) { DigitFacts(s[i]); }
    assert back == Digits(s);
    DigitValuesOfDigits(s);
    BytesOfSextets(b);
  }

  lemma EncodeIsUrlSafe(b: seq<Byte>)
    ensures forall c | c in Encode(b) :: UrlSafe(c)
  {
    EncodeIsUrlDigits(b);
    var s := Sextets(b);
    forall c | c in UrlDigits(s) ensures UrlSafe(c) {
      var i :| 0 <= i < |s| && UrlDigits(s)[i] == c;
      DigitFacts(s[i]);
    }
  }

  lemma {:induction false} SextetCount(b: seq<Byte>)
    ensures |Sextets(b)| == (4 * |b| + 2) / 3
  {
    if |b| >= 3 { SextetCount(b[3..]); }
  }

  /** A cursor fits into 2048 characters exactly when its text has at most 1536 bytes. */
  lemma EncodedLength(b: seq<Byte>)
    ensures |Encode(b)| == (4 * |b| + 2) / 3
    ensures |Encode(b)| <= 2048 <==> |b| <= 1536
  {
    EncodeIsUrlDigits(b);
    SextetCount(b);
  }
}
