/** The pieces of java.lang behaviour that the gateway's decisions depend on:
    null-or-value, value-or-exception, whitespace and blankness of strings,
    lower-casing, prefix tests, decimal rendering of integers and the
    32-bit two's-complement `int`. */
module JavaLang {

  /** A Java reference that may be null. */
  datatype Option<+T> = None | Some(value: T)

  /** A computation that returns a value or throws; the error is the
      exception's message. */
  datatype Result<+T, +E> = Ok(value: T) | Err(error: E)

  // ---------------------------------------------------------------------
  // Whitespace, blankness, text

  /** Character.isWhitespace: the Unicode space, line and paragraph
      separators other than the three non-breaking spaces, plus the
      control characters \t \n \u000B \f \r and \u001C..\u001F. */
  predicate IsWhitespace(c: char) {
    || c == ' '
    || ('\t' <= c <= '\r')
    || ('\U{1C}' <= c <= '\U{1F}')
    || c == '\U{1680}'
    || ('\U{2000}' <= c <= '\U{2006}')
    || ('\U{2008}' <= c <= '\U{200A}')
    || c == '\U{2028}' || c == '\U{2029}'
    || c == '\U{205F}' || c == '\U{3000}'
  }

  /** String.isBlank: empty, or whitespace only. */
  predicate IsBlank(s: string) {
    forall i :: 0 <= i < |s| ==> IsWhitespace(s[i])
  }

  /** The token library's Strings.hasText: some character is not whitespace. */
  predicate HasText(s: string) {
    exists i :: 0 <= i < |s| && !IsWhitespace(s[i])
  }

  /** Character.toLowerCase restricted to the ASCII letters. */
  function ToLowerChar(c: char): char {
    if 'A' <= c <= 'Z' then (c as int + 32) as char else c
  }

  /** String.toLowerCase for text whose upper-case letters are ASCII. */
  function ToLowerCase(s: string): string {
    seq(|s|, i requires 0 <= i < |s| => ToLowerChar(s[i]))
  }

  /** Lower-casing a second time changes nothing. */
  lemma ToLowerCaseIdempotent(s: string)
    ensures ToLowerCase(ToLowerCase(s)) == ToLowerCase(s)
  {
  }

  /** Lower-casing neither creates nor removes whitespace, so a string is
      blank exactly when its lower-case form is. */
  lemma ToLowerCasePreservesBlank(s: string)
    ensures IsBlank(ToLowerCase(s)) <==> IsBlank(s)
  {
    var low := ToLowerCase(s);
    assert forall i :: 0 <= i < |s| ==> (IsWhitespace(low[i]) <==> IsWhitespace(s[i]));
  }

  /** String.startsWith, case-sensitive. */
  predicate StartsWith(s: string, prefix: string) {
    |prefix| <= |s| && s[..|prefix|] == prefix
  }

  /** String.endsWith, case-sensitive. */
  predicate EndsWith(s: string, suffix: string) {
    |suffix| <= |s| && s[|s| - |suffix|..] == suffix
  }

  /** The message of a NullPointerException raised by invoking `invoked` on
      a null, as the JVM spells it: `receiver` describes where the null
      came from. */
  function NullPointerMessage(invoked: string, receiver: string): (m: string)
    ensures StartsWith(m, "Cannot invoke \"")
    ensures EndsWith(m, " is null")
  {
    var m := "Cannot invoke \"" + invoked + "\" because " + receiver + " is null";
    assert m[..15] == "Cannot invoke \"";
    assert m[|m| - 8..] == " is null";
    m
  }

  /** How string concatenation renders a possibly-null String. */
  function NullableText(s: Option<string>): string {
    if s.Some? then s.value else "null"
  }

  // ---------------------------------------------------------------------
  // Decimal rendering (`"..." + n` for a non-negative n)

  predicate IsDigit(c: char) {
    '0' <= c <= '9'
  }

  function DigitChar(d: nat): (c: char)
    requires d < 10
    ensures IsDigit(c) && c as int - '0' as int == d
  {
    ('0' as int + d) as char
  }

  function DigitValue(c: char): (d: nat)
    requires IsDigit(c)
    ensures d < 10
  {
    c as int - '0' as int
  }

  /** The decimal digits of `n`, most significant first, without leading zeros. */
  function NatToDecimal(n: nat): string
    decreases n
  {
    if n < 10 then [DigitChar(n)] else NatToDecimal(n / 10) + [DigitChar(n % 10)]
  }

  /** The value of a string of decimal digits (an independent reading of
      what NatToDecimal writes). */
  function DecimalValue(s: string): nat
    requires forall i :: 0 <= i < |s| ==> IsDigit(s[i])
  {
    if |s| == 0 then 0
    else 10 * DecimalValue(s[..|s| - 1]) + DigitValue(s[|s| - 1])
  }

  /** Rendering a natural number in decimal yields a non-empty digit string
      that reads back as the same number, with no superfluous leading zero. */
  lemma {:induction false} DecimalRoundTrip(n: nat)
    ensures |NatToDecimal(n)| > 0
    ensures forall i :: 0 <= i < |NatToDecimal(n)| ==> IsDigit(NatToDecimal(n)[i])
    ensures DecimalValue(NatToDecimal(n)) == n
    ensures |NatToDecimal(n)| > 1 ==> NatToDecimal(n)[0] != '0'
    decreases n
  {
    if n >= 10 {
      DecimalRoundTrip(n / 10);
      var front := NatToDecimal(n / 10);
      var s := front + [DigitChar(n % 10)];
      assert s[..|s| - 1] == front;
      assert s[0] == front[0];
    }
  }

  // ---------------------------------------------------------------------
  // 32-bit two's-complement int

  const TwoTo32: int := 0x1_0000_0000
  const IntMin: int := -0x8000_0000
  const IntMax: int := 0x7FFF_FFFF

  /** The values of a Java `int`. */
  type Int32 = x: int | IntMin <= x <= IntMax

  /** The narrowing to `int` of any integer: keep the low 32 bits and read
      them as two's complement (the result of `int` addition, of `(int)` on
      a long, and of BigInteger.intValue). */
  function Wrap32(x: int): (r: Int32)
    ensures (r - x) % TwoTo32 == 0
    ensures IntMin <= x <= IntMax ==> r == x
  {
    var m := x % TwoTo32;
    if m > IntMax then m - TwoTo32 else m
  }
}
