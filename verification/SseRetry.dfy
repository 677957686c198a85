/** The retry field: the rule of section 9.2.6 of the WHATWG HTML Standard, against
    the integer parser that the decoder uses. */
module SseRetry {
  import opened Bridge
  import opened SseSpec

  predicate AllDigits(value: string) {
    forall i :: 0 <= i < |value| ==> IsDigit(value[i])
  }

  /** The standard: a value of ASCII digits only is a number in base ten, of any
      size; every other value is ignored. */
  function StandardRetry(value: string): Option<nat> {
    if value != "" && AllDigits(value) then Some(Digits(value)) else None
  }

  /** A sign that the parser takes: plus before digits up to the longest duration,
      minus before zero. */
  predicate SignTaken(value: string) {
    Signed(value) && |value| > 1 && AllDigits(value[1..]) &&
    if value[0] == '+' then Digits(value[1..]) <= MAX_RETRY else Digits(value[1..]) == 0
  }

  /** A number beyond the longest duration. */
  predicate TooLarge(value: string) {
    value != "" && AllDigits(value) && Digits(value) > MAX_RETRY
  }

  /** The parser departs from the standard exactly for these two kinds of values. */
  lemma RetryDepartsExactly(value: string)
    ensures ParseRetry(value) != StandardRetry(value) <==> SignTaken(value) || TooLarge(value)
  {
    if Signed(value) {
      assert !IsDigit(value[0]);
    }
  }

  /** What it does then: it takes the number after the sign, and drops the large one. */
  lemma RetryDeparts(value: string)
    ensures SignTaken(value) ==> ParseRetry(value) == Some(Digits(value[1..])) && StandardRetry(value) == None
    ensures TooLarge(value) ==> ParseRetry(value) == None && StandardRetry(value) == Some(Digits(value))
  {
    RetryDepartsExactly(value);
  }

  lemma PlusFive()
    ensures ParseRetry("+5") == Some(5) && StandardRetry("+5") == None
  {
    assert "+5"[1..] == "5" && "5"[..0] == "";
    assert Digits("5") == 5;
    RetryDeparts("+5");
  }

  /** Ten billion seconds: a number to the standard, nothing to the parser. */
  lemma TenBillionSeconds()
    ensures ParseRetry("10000000000000") == None && StandardRetry("10000000000000").Some?
  {
    LeadingOne("10000000000000", 13);
    RetryDeparts("10000000000000");
  }

  function PowerOfTen(n: nat): nat {
    if n == 0 then 1 else 10 * PowerOfTen(n - 1)
  }

  lemma {:induction false} LeadingOne(s: string, n: nat)
    requires |s| == n + 1 && s[0] == '1' && forall i :: 1 <= i <= n ==> s[i] == '0'
    ensures AllDigits(s) && Digits(s) == PowerOfTen(n)
  {
    if n == 0 {
      assert s[..0] == "";
    } else {
      LeadingOne(s[..n], n - 1);
    }
  }
}
