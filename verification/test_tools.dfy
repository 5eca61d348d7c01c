/** TestToolService: two trivial tools, `echo` and `add`. */
module TestTools {
  import opened JavaLang

  const EchoPrefix: string := "Echo: "

  /** echo: the input behind a fixed prefix; a null input is rendered as
      the text "null". */
  function Echo(input: Option<string>): (r: string)
    ensures |r| == 6 + |NullableText(input)|
    ensures StartsWith(r, EchoPrefix) && EndsWith(r, NullableText(input))
    ensures input.None? ==> r == "Echo: null"
  {
    var r := EchoPrefix + NullableText(input);
    assert r[..6] == EchoPrefix;
    assert r[|r| - |NullableText(input)|..] == NullableText(input);
    r
  }

  /** The rendered input is what follows the prefix, so equal echoes come
      from equally rendered inputs, and from equal inputs when both are
      non-null. */
  lemma EchoInjective(a: Option<string>, b: Option<string>)
    requires Echo(a) == Echo(b)
    ensures NullableText(a) == NullableText(b)
    ensures a.Some? && b.Some? ==> a == b
  {
  }

  /** A null input and the input "null" echo alike, so echo is not
      injective once null is allowed. */
  lemma EchoNullCollides()
    ensures Echo(None) == Echo(Some("null"))
    ensures None != Some("null")
  {
  }

  /** add: `int` addition, which wraps around modulo 2^32. */
  function Add(a: Int32, b: Int32): (r: Int32)
    ensures (r - (a + b)) % TwoTo32 == 0
    ensures IntMin <= a + b <= IntMax ==> r == a + b
  {
    Wrap32(a + b)
  }

  /** add is commutative, has 0 as identity, and overflows from the largest
      int to the smallest. */
  lemma AddLaws(a: Int32, b: Int32)
    ensures Add(a, b) == Add(b, a)
    ensures Add(a, 0) == a
    ensures Add(IntMax, 1) == IntMin
  {
  }
}
