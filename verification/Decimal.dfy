/** Decimal integers as text: strconv.Itoa and strconv.Atoi on 64-bit integers. */
module Decimal {
  import opened Common

  const MIN_INT := -0x8000_0000_0000_0000
  const MAX_INT := 0x7FFF_FFFF_FFFF_FFFF

  predicate Int64(n: int) { MIN_INT <= n <= MAX_INT }

  predicate IsDigit(c: char) { '0' <= c <= '9' }

  function DigitOf(n: nat): char
    requires n < 10
  {
    '0' + n as char
  }

  function ValueOf(c: char): nat
    requires IsDigit(c)
  {
    (c - '0') as nat
  }

  function Digits(n: nat): string {
    if n < 10 then [DigitOf(n)] else Digits(n / 10) + [DigitOf(n % 10)]
  }

  function Itoa(n: int): string { if n < 0 then "-" + Digits(-n) else Digits(n) }

  predicate AllDigits(s: string) { forall i | 0 <= i < |s| :: IsDigit(s[i]) }

  function Value(s: string): nat
    requires AllDigits(s)
  {
    if s == "" then 0 else Value(s[..|s| - 1]) * 10 + ValueOf(s[|s| - 1])
  }

  function Atoi(s: string): Option<int> {
    var signed := s != "" && (s[0] == '-' || s[0] == '+');
    var body := if signed then s[1..] else s;
    if body == "" || !AllDigits(body) then None
    else
      var v: int := Value(body);
      var n := if signed && s[0] == '-' then -v else v;
      if Int64(n) then Some(n) else None
  }

  lemma {:induction false} DigitsAreDigits(n: nat)
    ensures Digits(n) != "" && AllDigits(Digits(n)) && Value(Digits(n)) == n
  {
    if n < 10 {
      assert Digits(n)[..0] == "";
    } else {
      DigitsAreDigits(n / 10);
      assert Digits(n)[..|Digits(n)| - 1] == Digits(n / 10);
    }
  }

  lemma AtoiOfNegative(body: string, n: int)
    requires body != "" && AllDigits(body) && Int64(n) && Value(body) == -n
    ensures Atoi("-" + body) == Some(n)
  {
    assert ("-" + body)[1..] == body;
  }

  lemma AtoiOfDigits(body: string)
    requires body != "" && AllDigits(body) && Int64(Value(body))
    ensures Atoi(body) == Some(Value(body))
  {
    assert IsDigit(body[0]);
  }

  /** Reading back a printed integer gives it back. */
  lemma AtoiItoa(n: int)
    requires Int64(n)
    ensures Atoi(Itoa(n)) == Some(n)
  {
    if n < 0 {
      DigitsAreDigits(-n);
      AtoiOfNegative(Digits(-n), n);
    } else {
      DigitsAreDigits(n);
      AtoiOfDigits(Digits(n));
    }
  }

  /** The forms the standard library prints and reads. */
  lemma Forms()
    ensures Itoa(120) == "120" && Itoa(-7) == "-7" && Itoa(0) == "0"
    ensures Atoi("+12") == Some(12) && Atoi("007") == Some(7)
    ensures Atoi("") == None && Atoi("-") == None && Atoi("1x") == None
  {
    assert Digits(12) == Digits(1) + "2" && Digits(120) == Digits(12) + "0";
    assert "+12"[1..] == "12" && "12"[..1] == "1" && "1"[..0] == "";
    assert Value("1") == 1 && Value("12") == 12;
    assert "007"[..2] == "00" && "00"[..1] == "0" && "0"[..0] == "";
    assert Value("0") == 0 && Value("00") == 0 && Value("007") == 7;
    assert "-"[1..] == "";
    assert !IsDigit("1x"[1]);
  }

  lemma ItoaHasNoDot(n: int)
    ensures '.' !in Itoa(n)
  {
    DigitsAreDigits(if n < 0 then -n else n);
  }
}
