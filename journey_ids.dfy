/** The journey counter `Journey_ID`, a Java `int`, and the identifiers
  * `"J" + counter` built from it. */
module JourneyIds {
  import opened Wrappers

  const IntMin: int := -0x8000_0000
  const IntMax: int := 0x7fff_ffff

  /** A Java `int`. */
  newtype JavaInt = n: int | -0x8000_0000 <= n < 0x8000_0000

  /** `Journey_ID++` on a Java `int`: one more, wrapping from the largest value
    * to the smallest. */
  function Increment(n: JavaInt): (r: JavaInt)
    ensures r != n
    ensures n as int < IntMax ==> r as int == n as int + 1
    ensures n as int == IntMax ==> r as int == IntMin
  {
    if n == 0x7fff_ffff then -0x8000_0000 else n + 1
  }

  /** The decimal digit for `d`. */
  function DigitChar(d: nat): (c: char)
    requires d < 10
    ensures '0' <= c <= '9'
  {
    "0123456789"[d]
  }

  /** The value of a decimal digit character. */
  function DigitValue(c: char): (d: nat)
    requires '0' <= c <= '9'
    ensures d < 10
  {
    (c - '0') as nat
  }

  lemma DigitRoundTrip(d: nat)
    requires d < 10
    ensures DigitValue(DigitChar(d)) == d
  {
  }

  /** Every character is a decimal digit. */
  predicate AllDigits(s: string)
  {
    forall i :: 0 <= i < |s| ==> '0' <= s[i] <= '9'
  }

  /** The decimal form of a natural number, without leading zeros. */
  function NatDigits(n: nat): (s: string)
    ensures |s| > 0
    ensures AllDigits(s)
    decreases n
  {
    if n < 10 then [DigitChar(n)] else NatDigits(n / 10) + [DigitChar(n % 10)]
  }

  /** Reading a string of decimal digits back. */
  function ParseDigits(s: string): nat
    requires AllDigits(s)
  {
    if s == [] then 0 else ParseDigits(s[..|s| - 1]) * 10 + DigitValue(s[|s| - 1])
  }

  /** `Integer.toString`: decimal form with a leading minus for negatives. */
  function DecimalString(n: int): (s: string)
    ensures |s| > 0
    ensures s[0] == '-' <==> n < 0
    ensures n < 0 ==> |s| > 1 && AllDigits(s[1..])
    ensures n >= 0 ==> AllDigits(s)
  {
    if n < 0 then "-" + NatDigits(-n) else NatDigits(n)
  }

  /** Reading a decimal form back. */
  function ParseDecimal(s: string): Option<int>
  {
    if |s| > 0 && s[0] == '-' then
      if AllDigits(s[1..]) then Some(0 - ParseDigits(s[1..])) else None
    else
      if AllDigits(s) then Some(ParseDigits(s)) else None
  }

  lemma {:induction false} ParseNatDigits(n: nat)
    ensures ParseDigits(NatDigits(n)) == n
    decreases n
  {
    var s := NatDigits(n);
    if n < 10 {
      DigitRoundTrip(n);
      assert s[..|s| - 1] == [];
    } else {
      ParseNatDigits(n / 10);
      DigitRoundTrip(n % 10);
      assert s[..|s| - 1] == NatDigits(n / 10);
    }
  }

  /** Reading back the decimal form of an integer gives the integer. */
  lemma DecimalRoundTrip(n: int)
    ensures ParseDecimal(DecimalString(n)) == Some(n)
  {
    var s := DecimalString(n);
    if n < 0 {
      var d := NatDigits(-n);
      assert s == "-" + d && s[1..] == d;
      ParseNatDigits(-n);
      assert ParseDecimal(s) == Some(0 - ParseDigits(d));
    } else {
      assert '0' <= s[0] <= '9';
      ParseNatDigits(n);
      assert ParseDecimal(s) == Some(ParseDigits(s));
    }
  }

  /** The identifier of a journey numbered `n`. */
  function JourneyId(n: int): (id: string)
    ensures |id| > 1 && id[0] == 'J'
    ensures id[1] == '-' <==> n < 0
    ensures n >= 0 ==> AllDigits(id[1..])
    ensures n < 0 ==> |id| > 2 && AllDigits(id[2..])
  {
    var s := DecimalString(n);
    assert ("J" + s)[1..] == s && ("J" + s)[1] == s[0];
    assert n < 0 ==> ("J" + s)[2..] == s[1..];
    "J" + s
  }

  /** Distinct counter values give distinct identifiers. */
  lemma JourneyIdInjective(m: int, n: int)
    requires JourneyId(m) == JourneyId(n)
    ensures m == n
  {
    assert JourneyId(m)[1..] == DecimalString(m);
    assert JourneyId(n)[1..] == DecimalString(n);
    DecimalRoundTrip(m);
    DecimalRoundTrip(n);
  }

  /** Two journeys made one after the other by the numbering constructor carry
    * different identifiers. */
  lemma NextIdDiffers(n: JavaInt)
    ensures JourneyId(n as int) != JourneyId(Increment(n) as int)
  {
    if JourneyId(n as int) == JourneyId(Increment(n) as int) {
      JourneyIdInjective(n as int, Increment(n) as int);
    }
  }
}
