/** Decimal notation of integers, as std::to_string writes it and a JSON reader reads it. */
module Decimal {
  predicate IsDigit(c: char) {
    '0' <= c <= '9'
  }

  function DigitChar(d: nat): (c: char)
    requires d < 10
    ensures IsDigit(c) && c as int - '0' as int == d
  {
    ('0' as int + d) as char
  }

  function Digits(n: nat): (text: string)
    ensures text != []
  {
    if n < 10 then [DigitChar(n)] else Digits(n / 10) + [DigitChar(n % 10)]
  }

  /** The number that a text of decimal digits stands for, place by place. */
  function Number(text: string): int {
    if text == "" then 0 else 10 * Number(text[..|text| - 1]) + (text[|text| - 1] as int - '0' as int)
  }

  lemma {:induction false} DigitsAreTheNumber(n: nat)
    ensures Number(Digits(n)) == n && forall i | 0 <= i < |Digits(n)| :: IsDigit(Digits(n)[i])
  {
    if n < 10 {
      assert Digits(n)[..0] == "";
    } else {
      DigitsAreTheNumber(n / 10);
      assert Digits(n)[..|Digits(n)| - 1] == Digits(n / 10);
    }
  }

  function ToString(n: int): string {
    if n < 0 then "-" + Digits(-n) else Digits(n)
  }

  /** Reads the digits at the front of `s` behind the value `acc`: the value and what is left. */
  function ReadDigits(s: string, acc: nat): (r: (nat, string))
    ensures |r.1| <= |s|
  {
    if s != [] && IsDigit(s[0]) then
      ReadDigits(s[1..], 10 * acc + (s[0] as int - '0' as int))
    else (acc, s)
  }

  predicate StartsWithDigit(s: string) {
    s != [] && IsDigit(s[0])
  }

  lemma {:induction false} ReadDigitsOfDigits(n: nat, rest: string)
    ensures ReadDigits(Digits(n) + rest, 0) == ReadDigits(rest, n)
  {
    if n >= 10 {
      var last := [DigitChar(n % 10)];
      assert Digits(n) + rest == Digits(n / 10) + (last + rest);
      ReadDigitsOfDigits(n / 10, last + rest);
      assert (last + rest)[1..] == rest;
    } else {
      assert (Digits(n) + rest)[1..] == rest;
    }
  }

  /** Only zero is written with a leading zero, and the first character is always a digit. */
  lemma {:induction false} FirstDigit(n: nat)
    ensures IsDigit(Digits(n)[0])
    ensures Digits(n)[0] == '0' <==> n == 0
  {
    if n >= 10 {
      FirstDigit(n / 10);
      assert Digits(n)[0] == Digits(n / 10)[0];
    }
  }

  /** Different numbers are written differently. */
  lemma DigitsInjective(m: nat, n: nat)
    requires Digits(m) == Digits(n)
    ensures m == n
  {
    ReadDigitsOfDigits(m, []);
    ReadDigitsOfDigits(n, []);
    assert Digits(m) + [] == Digits(m) && Digits(n) + [] == Digits(n);
  }
}
