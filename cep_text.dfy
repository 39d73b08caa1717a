/**
 * Cleaning of a user-typed postal code (CEP). Both lookups strip every
 * character that is not an ASCII decimal digit (the regular expression class
 * `\D` without the unicode flag); only the form side also keeps at most the
 * first eight digits.
 */
module CepText {

  /** The length of a postal code that is looked up. */
  const CepLength := 8

  predicate IsDigit(c: char) {
    '0' <= c <= '9'
  }

  predicate AllDigits(s: string) {
    forall i :: 0 <= i < |s| ==> IsDigit(s[i])
  }

  /** `s` with every non-digit removed and the digits kept in order. */
  function Digits(s: string): (r: string)
    ensures AllDigits(r)
    ensures |r| <= |s|
    ensures AllDigits(s) ==> r == s
  {
    if s == [] then []
    else if IsDigit(s[0]) then [s[0]] + Digits(s[1..])
    else Digits(s[1..])
  }

  /** Digits distributes over concatenation: this, together with its
      behaviour on one character, pins it down as the order-preserving
      filter that drops exactly the non-digits. */
  lemma {:induction false} DigitsAppend(a: string, b: string)
    ensures Digits(a + b) == Digits(a) + Digits(b)
  {
    if a == [] {
      assert a + b == b;
    } else {
      assert (a + b)[0] == a[0];
      assert (a + b)[1..] == a[1..] + b;
      DigitsAppend(a[1..], b);
    }
  }

  lemma DigitsOfOne(c: char)
    ensures Digits([c]) == if IsDigit(c) then [c] else []
  {
  }

  /** Every digit occurrence survives the filter and nothing else does. */
  lemma {:induction false} DigitsCount(s: string, c: char)
    ensures multiset(Digits(s))[c] == if IsDigit(c) then multiset(s)[c] else 0
  {
    if s != [] {
      assert s == [s[0]] + s[1..];
      DigitsCount(s[1..], c);
    }
  }

  /** The form-side normaliser: digits only, then at most the first eight. */
  function Normalize(s: string): (r: string)
    ensures AllDigits(r)
    ensures |r| == (if |Digits(s)| < CepLength then |Digits(s)| else CepLength)
    ensures r == Digits(s)[..|r|]
  {
    var d := Digits(s);
    if |d| <= CepLength then d else d[..CepLength]
  }

  /** Normalising a normalised code changes nothing. */
  lemma NormalizeIdempotent(s: string)
    ensures Normalize(Normalize(s)) == Normalize(s)
  {
  }

  /** With at most eight digits in the input, truncation is a no-op. */
  lemma NormalizeShort(s: string)
    requires |Digits(s)| <= CepLength
    ensures Normalize(s) == Digits(s)
  {
  }
}
