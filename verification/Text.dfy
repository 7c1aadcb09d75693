/** Decimal rendering and parsing of the numbers inside message and output identifiers. */
module Text {
  import opened Prelude

  predicate IsDigit(c: char) { '0' <= c <= '9' }

  predicate AllDigits(s: string) { forall i :: 0 <= i < |s| ==> IsDigit(s[i]) }

  /** `f"{n}"` for a non-negative number. */
  function Decimal(n: nat): (s: string)
    ensures |s| >= 1 && AllDigits(s)
  {
    if n < 10 then [('0' as int + n) as char]
    else Decimal(n / 10) + [('0' as int + n % 10) as char]
  }

  function DigitsValue(s: string): nat
    requires AllDigits(s)
  {
    if s == [] then 0
    else 10 * DigitsValue(s[..|s| - 1]) + (s[|s| - 1] as int - '0' as int)
  }

  /** `int(s)` on a run of digits; anything else is the error case. */
  function ParseNat(s: string): Result<nat> {
    if s != [] && AllDigits(s) then Ok(DigitsValue(s)) else Err
  }

  lemma {:induction false} ParseInvertsDecimal(n: nat)
    ensures ParseNat(Decimal(n)) == Ok(n)
  {
    var s := Decimal(n);
    assert s[|s| - 1] as int - '0' as int == n % 10;
    if n < 10 {
      assert DigitsValue(s[..|s| - 1]) == 0;
      assert DigitsValue(s) == n;
    } else {
      ParseInvertsDecimal(n / 10);
      assert s[..|s| - 1] == Decimal(n / 10);
    }
  }

  lemma DigitsAvoid(s: string, c: char)
    requires AllDigits(s) && !IsDigit(c)
    ensures c !in s
  {
  }

  /** Python's order on strings. */
  predicate AtMost(a: string, b: string)
    decreases |a|
  {
    if a == [] then true
    else if b == [] then false
    else if a[0] != b[0] then a[0] < b[0]
    else AtMost(a[1..], b[1..])
  }

  predicate IsSpace(c: char) { c == ' ' || '\t' <= c <= '\r' }

  /** `s.strip()`. */
  function Stripped(s: string): string {
    if s != [] && IsSpace(s[0]) then Stripped(s[1..])
    else if s != [] && IsSpace(s[|s| - 1]) then Stripped(s[..|s| - 1])
    else s
  }

  lemma {:induction false} StrippedAgain(s: string)
    ensures Stripped(Stripped(s)) == Stripped(s)
    decreases |s|
  {
    if s != [] && IsSpace(s[0]) {
      StrippedAgain(s[1..]);
    } else if s != [] && IsSpace(s[|s| - 1]) {
      StrippedAgain(s[..|s| - 1]);
    }
  }

  /** Bank ids compare as numbers when they are numbers. */
  function BankId(value: string): string {
    var v := Stripped(value);
    if v != [] && AllDigits(v) then Decimal(DigitsValue(v)) else v
  }

  lemma BankIdAgain(value: string)
    ensures BankId(BankId(value)) == BankId(value)
  {
    var v := Stripped(value);
    StrippedAgain(value);
    if v != [] && AllDigits(v) {
      var d := Decimal(DigitsValue(v));
      ParseInvertsDecimal(DigitsValue(v));
      assert !IsSpace(d[0]) && !IsSpace(d[|d| - 1]);
      assert Stripped(d) == d;
    }
  }
}
