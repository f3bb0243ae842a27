/** The booking step's values: the fixed agent roster and the generated
    booking and customer identifiers. */
module Booking {
  import opened Text

  /** A pickup agent of the roster. */
  datatype Agent = Agent(name: string, contact: string, vehicle: string)

  /** The three agents a booking is assigned from. */
  const Roster: seq<Agent> := [
    Agent("Ramesh Kumar", "+91 98765 43210", "AP 23 AB 4567"),
    Agent("Suresh Verma", "+91 91234 56789", "TS 09 CD 7890"),
    Agent("Vikram Singh", "+91 87876 54321", "KA 05 EF 1234")
  ]

  function DigitChar(d: nat): (c: char)
    requires d < 10
    ensures IsDigit(c)
  {
    ('0' as int + d) as char
  }

  /** The value of a string of decimal digits. */
  function DigitsValue(s: string): nat
    requires AllDigits(s)
  {
    if s == [] then 0 else DigitsValue(s[..|s| - 1]) * 10 + (s[|s| - 1] as int - '0' as int)
  }

  /** `str(n)` for a natural number: its decimal digits, with no leading zero. */
  function DecimalString(n: nat): (r: string)
    ensures |r| >= 1 && AllDigits(r)
    ensures |r| > 1 ==> r[0] != '0'
    ensures DigitsValue(r) == n
  {
    if n < 10 then [DigitChar(n)]
    else
      var prefix := DecimalString(n / 10);
      var r := prefix + [DigitChar(n % 10)];
      assert r[..|r| - 1] == prefix;
      r
  }

  /** A number of `randint(1000, 9999)` is written with exactly four digits. */
  lemma FourDigitNumber(n: nat)
    requires 1000 <= n <= 9999
    ensures |DecimalString(n)| == 4
  {
    assert |DecimalString(n / 1000)| == 1;
    assert |DecimalString(n / 100)| == 2;
    assert |DecimalString(n / 10)| == 3;
  }

  /** The shape of a booking id, `BK\d{4}` with no leading zero. */
  predicate IsBookingId(s: string) {
    |s| == 6 && s[..2] == "BK" && AllDigits(s[2..]) && 1000 <= DigitsValue(s[2..]) <= 9999
  }

  /** The shape of a customer id, `CUST\d{4}` with no leading zero. */
  predicate IsCustomerId(s: string) {
    |s| == 8 && s[..4] == "CUST" && AllDigits(s[4..]) && 1000 <= DigitsValue(s[4..]) <= 9999
  }

  /** `f"BK{randint(1000, 9999)}"`: "BK" followed by four digits that spell `n`. */
  function BookingId(n: int): (r: string)
    requires 1000 <= n <= 9999
    ensures IsBookingId(r) && DigitsValue(r[2..]) == n
  {
    FourDigitNumber(n);
    var r := "BK" + DecimalString(n);
    assert r[2..] == DecimalString(n);
    r
  }

  /** `f"CUST{randint(1000, 9999)}"`: "CUST" followed by four digits that spell `n`. */
  function CustomerId(n: int): (r: string)
    requires 1000 <= n <= 9999
    ensures IsCustomerId(r) && DigitsValue(r[4..]) == n
  {
    FourDigitNumber(n);
    var r := "CUST" + DecimalString(n);
    assert r[4..] == DecimalString(n);
    r
  }

  /** Distinct draws give distinct identifiers, so ids collide only when the draws do. */
  lemma IdsDistinguishDraws(n: int, m: int)
    requires 1000 <= n <= 9999 && 1000 <= m <= 9999
    ensures BookingId(n) == BookingId(m) <==> n == m
    ensures CustomerId(n) == CustomerId(m) <==> n == m
  {
  }
}
