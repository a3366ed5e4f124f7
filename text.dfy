/** The few string formats the services build. */
module Text {
  import opened Wrappers

  /** A single decimal digit. */
  function Digit(d: nat): (c: char)
    requires d < 10
  {
    "0123456789"[d]
  }

  /** The decimal numeral of a natural number, without leading zeros. */
  function Numeral(n: nat): (s: string)
    ensures |s| >= 1
    ensures forall i :: 0 <= i < |s| ==> '0' <= s[i] <= '9'
    decreases n
  {
    if n < 10 then [Digit(n)] else Numeral(n / 10) + [Digit(n % 10)]
  }

  /** JavaScript's String(n) for an integer n. */
  function Decimal(n: int): (s: string)
    ensures |s| >= 1
  {
    if n < 0 then "-" + Numeral(-n) else Numeral(n)
  }

  function DigitValue(c: char): (d: nat)
    requires '0' <= c <= '9'
    ensures d < 10
  {
    (c as int - '0' as int) as nat
  }

  /** Reads back a numeral written by Numeral. */
  function ParseNumeral(s: string): (n: nat)
    requires |s| >= 1
    requires forall i :: 0 <= i < |s| ==> '0' <= s[i] <= '9'
    decreases |s|
  {
    if |s| == 1 then DigitValue(s[0])
    else ParseNumeral(s[..|s| - 1]) * 10 + DigitValue(s[|s| - 1])
  }

  /** Reading a numeral back yields the number it was written for. */
  lemma {:induction false} NumeralRoundTrip(n: nat)
    ensures ParseNumeral(Numeral(n)) == n
    decreases n
  {
    if n >= 10 {
      var s := Numeral(n);
      assert s[..|s| - 1] == Numeral(n / 10);
      NumeralRoundTrip(n / 10);
    }
  }

  /** Distinct local ids give distinct external ids. */
  lemma DecimalInjective(m: int, n: int)
    requires Decimal(m) == Decimal(n)
    ensures m == n
  {
    SignOfDecimal(m);
    SignOfDecimal(n);
    if m < 0 {
      NumeralInjective(-m, -n);
    } else {
      NumeralInjective(m, n);
    }
  }

  lemma NumeralInjective(m: nat, n: nat)
    requires Numeral(m) == Numeral(n)
    ensures m == n
  {
    NumeralRoundTrip(m);
    NumeralRoundTrip(n);
  }

  lemma SignOfDecimal(n: int)
    ensures Decimal(n)[0] == '-' <==> n < 0
    ensures n < 0 ==> Decimal(n)[1..] == Numeral(-n)
    ensures n >= 0 ==> Decimal(n) == Numeral(n)
  {
    if n >= 0 {
      var s := Numeral(n);
      assert '0' <= s[0] <= '9';
    }
  }

  /** The platform's search filter for records modified after the given ISO-8601 instant. */
  function UpdatedSince(iso: string): (q: string)
    ensures |q| == |iso| + 14
    ensures q[..13] == "updated_at:>\"" && q[13..|q| - 1] == iso && q[|q| - 1] == '"'
  {
    "updated_at:>\"" + iso + "\""
  }

  /** JavaScript truthiness of an optional string: present and not empty. */
  predicate Truthy(s: Option<string>)
  {
    s.Some? && s.value != ""
  }

  /** `t` occurs in `s` as a contiguous piece (the store's `contains` filter, without case folding). */
  predicate Contains(s: string, t: string)
  {
    exists i :: 0 <= i <= |s| - |t| && t <= s[i..]
  }
}
