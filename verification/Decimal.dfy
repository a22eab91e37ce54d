/**
  The decimal text that carries a placement: the scheduler parses the winning GPU's ID into a number when a task is
  placed and prints that number again to find the GPU to refund. The two directions agree on some IDs only.
*/
module Decimal {
  import opened Wrappers

  const MIN_INT64 := -0x8000_0000_0000_0000
  const MAX_INT64 := 0x7FFF_FFFF_FFFF_FFFF

  type Int64 = n: int | MIN_INT64 <= n <= MAX_INT64

  predicate IsDigit(c: char) {
    '0' <= c <= '9'
  }

  function DigitValue(c: char): nat
    requires IsDigit(c)
  {
    c as int - '0' as int
  }

  function DigitChar(d: nat): (c: char)
    requires d < 10
    ensures IsDigit(c) && DigitValue(c) == d
  {
    '0' + d as char
  }

  predicate AllDigits(s: string) {
    forall i | 0 <= i < |s| :: IsDigit(s[i])
  }

  function Digits(n: nat): (s: string)
    ensures |s| > 0 && AllDigits(s)
    ensures s[0] == '0' ==> n == 0 && |s| == 1
  {
    if n < 10 then [DigitChar(n)] else Digits(n / 10) + [DigitChar(n % 10)]
  }

  /** `fmt.Sprintf("%d", n)`. */
  function Itoa(n: int): string {
    if n < 0 then "-" + Digits(-n) else Digits(n)
  }

  function Value(s: string): nat
    requires AllDigits(s)
  {
    if s == "" then 0 else 10 * Value(s[..|s| - 1]) + DigitValue(s[|s| - 1])
  }

  predicate Signed(s: string) {
    s != "" && (s[0] == '-' || s[0] == '+')
  }

  function Body(s: string): string {
    if Signed(s) then s[1..] else s
  }

  /** `strconv.Atoi`: an optional sign, at least one digit, and a value that fits 64 bits. */
  function Atoi(s: string): Option<Int64> {
    if Body(s) == "" || !AllDigits(Body(s)) then None
    else
      var n: int := if s[0] == '-' then 0 - Value(Body(s)) else Value(Body(s));
      if MIN_INT64 <= n <= MAX_INT64 then Some(n) else None
  }

  /** No plus sign, no leading zero, no "-0", and in range. */
  predicate Canonical(s: string) {
    && Body(s) != "" && AllDigits(Body(s))
    && s[0] != '+'
    && (Body(s)[0] == '0' ==> s == "0")
    && Atoi(s).Some?
  }

  lemma {:induction false} ValueOfDigits(n: nat)
    ensures Value(Digits(n)) == n
  {
    var s := Digits(n);
    if n < 10 {
      assert s[..0] == "";
    } else {
      ValueOfDigits(n / 10);
      assert s[..|s| - 1] == Digits(n / 10);
    }
  }

  lemma {:induction false} DigitsOfValue(s: string)
    requires s != "" && AllDigits(s)
    requires s[0] == '0' ==> |s| == 1
    ensures Digits(Value(s)) == s
  {
    var front, last := s[..|s| - 1], DigitValue(s[|s| - 1]);
    assert Value(s) == 10 * Value(front) + last;
    assert DigitChar(last) == s[|s| - 1];
    if |s| == 1 {
      assert front == "";
      assert s == [s[0]];
    } else {
      DigitsOfValue(front);
      assert Digits(0) == "0";
      assert Value(s) / 10 == Value(front) && Value(s) % 10 == last;
      assert s == front + [s[|s| - 1]];
    }
  }

  lemma AtoiDigits(n: nat)
    requires n <= MAX_INT64
    ensures Atoi(Digits(n)) == Some(n)
  {
    ValueOfDigits(n);
    assert IsDigit(Digits(n)[0]);
  }

  lemma AtoiMinusDigits(n: nat)
    requires 0 < n <= -MIN_INT64
    ensures Atoi("-" + Digits(n)) == Some(0 - n)
  {
    ValueOfDigits(n);
    assert Body("-" + Digits(n)) == Digits(n);
  }

  /** Printing then parsing is the identity on machine integers. */
  lemma AtoiItoa(n: Int64)
    ensures Atoi(Itoa(n)) == Some(n)
  {
    if n < 0 {
      AtoiMinusDigits(-(n as int));
    } else {
      AtoiDigits(n);
    }
  }

  lemma CanonicalPrintsBack(s: string)
    requires Canonical(s)
    ensures Itoa(Atoi(s).value) == s
  {
    DigitsOfValue(Body(s));
    assert Digits(0) == "0";
    if s[0] == '-' {
      assert s == "-" + Body(s);
    }
  }

  lemma PrintedIsCanonical(n: Int64)
    ensures Canonical(Itoa(n))
  {
    AtoiItoa(n);
    var s := Itoa(n);
    if n < 0 {
      assert Body(s) == Digits(-(n as int));
    } else {
      assert IsDigit(s[0]) && Body(s) == s;
      assert s[0] == '0' ==> s == [s[0]];
    }
  }

  /** Parsing then printing gives the text back on exactly the canonical numerals. */
  lemma CanonicalIff(s: string)
    ensures Canonical(s) <==> Atoi(s).Some? && Itoa(Atoi(s).value) == s
  {
    if Canonical(s) {
      CanonicalPrintsBack(s);
    }
    if Atoi(s).Some? {
      PrintedIsCanonical(Atoi(s).value);
    }
  }
}
