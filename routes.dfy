/**
 * The detail route `Routes.Detail`: its template is "detail/{recipeId}" with an
 * integer argument, and `createRoute(recipeId)` fills it in with Kotlin's
 * decimal rendering of an `Int`.
 */
module Routes {
  import opened Wrappers

  const DetailPrefix: string := "detail/"

  predicate IsDigit(c: char) {
    '0' <= c <= '9'
  }

  predicate AllDigits(s: string) {
    forall i :: 0 <= i < |s| ==> IsDigit(s[i])
  }

  function DigitChar(d: nat): (c: char)
    requires d < 10
    ensures IsDigit(c)
  {
    ('0' as int + d) as char
  }

  function DigitValue(c: char): (d: nat)
    requires IsDigit(c)
    ensures d < 10
  {
    c as int - '0' as int
  }

  /** Decimal digits of `n`, most significant first, without leading zeros. */
  function NatToDecimal(n: nat): (s: string)
    ensures |s| > 0 && AllDigits(s)
    ensures s[0] == '0' ==> n == 0 && s == "0"
    decreases n
  {
    if n < 10 then [DigitChar(n)] else NatToDecimal(n / 10) + [DigitChar(n % 10)]
  }

  /** Kotlin's `Int.toString()`: a minus sign for negative values, then the digits. */
  function IntToDecimal(n: int): (s: string)
    ensures |s| > 0
    ensures n < 0 <==> s[0] == '-'
    ensures n < 0 ==> AllDigits(s[1..])
    ensures n >= 0 ==> AllDigits(s)
  {
    if n < 0 then "-" + NatToDecimal(-n) else NatToDecimal(n)
  }

  /** `Routes.Detail.createRoute(recipeId)`: "detail/" followed by the id. */
  function CreateRoute(recipeId: int): (route: string)
    ensures |route| > |DetailPrefix| && route[..|DetailPrefix|] == DetailPrefix
    ensures route[|DetailPrefix|..] == IntToDecimal(recipeId)
  {
    DetailPrefix + IntToDecimal(recipeId)
  }

  /** The value of a string of decimal digits. */
  function DecimalValue(s: string): nat
    requires AllDigits(s)
    decreases |s|
  {
    if s == [] then 0 else DecimalValue(s[..|s| - 1]) * 10 + DigitValue(s[|s| - 1])
  }

  /** Reads an optionally signed decimal integer; None for anything else. */
  function ParseInt(s: string): Option<int> {
    if |s| > 1 && s[0] == '-' && AllDigits(s[1..]) then Some(-(DecimalValue(s[1..]) as int))
    else if |s| > 0 && AllDigits(s) then Some(DecimalValue(s))
    else None
  }

  /** Reads the `recipeId` argument back out of a concrete detail route. */
  function ParseDetailRoute(route: string): Option<int> {
    if |route| > |DetailPrefix| && route[..|DetailPrefix|] == DetailPrefix
    then ParseInt(route[|DetailPrefix|..])
    else None
  }

  lemma {:induction false} NatToDecimalRoundTrip(n: nat)
    ensures DecimalValue(NatToDecimal(n)) == n
    decreases n
  {
    if n >= 10 {
      var s := NatToDecimal(n / 10);
      NatToDecimalRoundTrip(n / 10);
      var t := s + [DigitChar(n % 10)];
      assert t[..|t| - 1] == s;
      assert DecimalValue(t) == DecimalValue(s) * 10 + n % 10;
    }
  }

  /** The route `createRoute` builds carries exactly the id it was given. */
  lemma CreateRouteRoundTrip(recipeId: int)
    ensures ParseDetailRoute(CreateRoute(recipeId)) == Some(recipeId)
  {
    var s := IntToDecimal(recipeId);
    assert CreateRoute(recipeId)[|DetailPrefix|..] == s;
    if recipeId < 0 {
      NatToDecimalRoundTrip(-recipeId);
      assert s[1..] == NatToDecimal(-recipeId);
    } else {
      NatToDecimalRoundTrip(recipeId);
    }
  }

  /** Different recipes get different routes. */
  lemma CreateRouteInjective(a: int, b: int)
    requires a != b
    ensures CreateRoute(a) != CreateRoute(b)
  {
    CreateRouteRoundTrip(a);
    CreateRouteRoundTrip(b);
  }

  /** Scenario: the route of the first seed recipe and of the missing-argument id. */
  lemma CreateRouteExamples()
    ensures CreateRoute(1) == "detail/1"
    ensures CreateRoute(42) == "detail/42"
    ensures CreateRoute(-1) == "detail/-1"
  {
  }
}
