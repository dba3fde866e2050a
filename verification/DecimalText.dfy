/** Integers in decimal notation, as str() prints them. */
module DecimalText {

  function Digits(n: nat): string {
    if n < 10 then ['0' + n as char] else Digits(n / 10) + ['0' + (n % 10) as char]
  }

  function Decimal(n: int): string { if n < 0 then "-" + Digits(-n) else Digits(n) }

  function ValueOf(s: string): int {
    if s == "" then 0 else ValueOf(s[..|s| - 1]) * 10 + (s[|s| - 1] as int - '0' as int)
  }

  lemma {:induction false} DigitsValue(n: nat)
    ensures ValueOf(Digits(n)) == n && Digits(n) != "" && forall c :: c in Digits(n) ==> '0' <= c <= '9'
  {
    if n >= 10 {
      DigitsValue(n / 10);
      assert Digits(n)[..|Digits(n)| - 1] == Digits(n / 10);
    } else {
      assert Digits(n)[..0] == "";
    }
  }

  function ReadDecimal(s: string): int {
    if "-" <= s then -ValueOf(s[1..]) else ValueOf(s)
  }

  /** The printed number determines the number and stays on one line. */
  lemma DecimalReadBack(n: int)
    ensures ReadDecimal(Decimal(n)) == n && '\n' !in Decimal(n)
  {
    var s := Digits(if n < 0 then -n else n);
    DigitsValue(if n < 0 then -n else n);
    assert s[0] in s;
    assert ("-" + s)[1..] == s;
  }

  /** Decimal digits without a leading zero, after a minus sign or not. */
  predicate IsPlain(s: string) {
    var digits := if "-" <= s then s[1..] else s;
    digits != "" && (forall c :: c in digits ==> '0' <= c <= '9') && (digits[0] == '0' ==> |digits| == 1)
  }

  lemma {:induction false} NoLeadingZero(n: nat)
    ensures Digits(n) != "" && (Digits(n)[0] == '0' ==> n == 0)
  {
    if n >= 10 { NoLeadingZero(n / 10); }
  }

  lemma DecimalIsPlain(n: int)
    ensures IsPlain(Decimal(n))
  {
    var m := if n < 0 then -n else n;
    DigitsValue(m);
    NoLeadingZero(m);
    assert Digits(m)[0] in Digits(m);
    assert ("-" + Digits(m))[1..] == Digits(m);
  }
}
