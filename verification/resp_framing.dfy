/** RESP2 array headers, as described by the Redis serialization protocol:
    `*<len>\r\n` for an array of `len` elements and `*-1\r\n` for the null
    array. The encoder is paired with a decoder that accepts exactly the
    canonical headers, and the two are shown to be inverse. */
module RespFraming {
  import opened Wrappers

  const CRLF: string := "\r\n"

  predicate IsDigit(c: char) { '0' <= c <= '9' }

  function DigitValue(c: char): (d: nat)
    requires IsDigit(c)
    ensures d < 10
  {
    c as int - '0' as int
  }

  function DigitChar(d: nat): (c: char)
    requires d < 10
    ensures IsDigit(c) && DigitValue(c) == d
  {
    ('0' as int + d) as char
  }

  predicate AllDigits(s: string)
  {
    forall i :: 0 <= i < |s| ==> IsDigit(s[i])
  }

  /** A decimal numeral as RESP writes lengths: non-empty, digits only, and
      no leading zero unless the numeral is "0" itself. */
  predicate IsCanonical(s: string)
  {
    |s| >= 1 && AllDigits(s) && (|s| == 1 || s[0] != '0')
  }

  /** The decimal numeral of `n`. */
  function Decimal(n: nat): (s: string)
    ensures IsCanonical(s)
    ensures n < 10 <==> |s| == 1
  {
    if n < 10 then [DigitChar(n)] else Decimal(n / 10) + [DigitChar(n % 10)]
  }

  /** The value of a string of digits (0 for the empty string). */
  function ParseDigits(s: string): nat
    requires AllDigits(s)
  {
    if s == [] then 0 else ParseDigits(s[..|s| - 1]) * 10 + DigitValue(s[|s| - 1])
  }

  lemma {:induction false} ParseDecimal(n: nat)
    ensures ParseDigits(Decimal(n)) == n
  {
    var s := Decimal(n);
    if n >= 10 {
      ParseDecimal(n / 10);
      assert s[..|s| - 1] == Decimal(n / 10);
    }
  }

  lemma {:induction false} LeadingDigitNonZero(s: string)
    requires AllDigits(s) && |s| >= 1 && s[0] != '0'
    ensures ParseDigits(s) >= 1
  {
    if |s| > 1 {
      LeadingDigitNonZero(s[..|s| - 1]);
    }
  }

  lemma {:induction false} DecimalParse(s: string)
    requires IsCanonical(s)
    ensures Decimal(ParseDigits(s)) == s
  {
    if |s| > 1 {
      var p := s[..|s| - 1];
      LeadingDigitNonZero(p);
      DecimalParse(p);
      assert s == p + [s[|s| - 1]];
    }
  }

  /** The length field of an array header: null, or a number of elements. */
  datatype ArrayLen = NullLen | Len(n: nat)

  function EncodeArrayHeader(h: ArrayLen): (s: string)
    ensures |s| >= 4 && s[0] == '*' && s[|s| - 2..] == CRLF
  {
    "*" + (match h case NullLen => "-1" case Len(n) => Decimal(n)) + CRLF
  }

  function DecodeArrayHeader(s: string): (r: Option<ArrayLen>)
    ensures r.Some? ==> |s| >= 4 && s[0] == '*' && s[|s| - 2..] == CRLF
  {
    if |s| < 4 || s[0] != '*' || s[|s| - 2..] != CRLF then None
    else
      var field := s[1..|s| - 2];
      if field == "-1" then Some(NullLen)
      else if IsCanonical(field) then Some(Len(ParseDigits(field)))
      else None
  }

  /** Every header decodes to the length it was encoded from. */
  lemma DecodeEncodeArrayHeader(h: ArrayLen)
    ensures DecodeArrayHeader(EncodeArrayHeader(h)) == Some(h)
  {
    var s := EncodeArrayHeader(h);
    match h
    case NullLen =>
      assert s[1..|s| - 2] == "-1";
    case Len(n) =>
      assert s[1..|s| - 2] == Decimal(n);
      ParseDecimal(n);
  }

  /** Every accepted header is the encoding of what it decodes to, so the
      encoding is one-to-one and the decoder accepts nothing else. */
  lemma EncodeDecodeArrayHeader(s: string)
    requires DecodeArrayHeader(s).Some?
    ensures EncodeArrayHeader(DecodeArrayHeader(s).value) == s
  {
    var field := s[1..|s| - 2];
    assert s == "*" + field + CRLF;
    if field != "-1" {
      DecimalParse(field);
    }
  }
}
