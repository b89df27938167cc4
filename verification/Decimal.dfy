/** Numbers as they are written: in decimal, with no sign and no leading zero. */
module Decimal {

  predicate IsDigit(c: char) {
    '0' <= c <= '9'
  }

  function Digit(n: nat): char
    requires n < 10
  {
    '0' + n as char
  }

  function Worth(c: char): nat
    requires IsDigit(c)
  {
    c as int - '0' as int
  }

  function Digits(n: nat): (s: string)
    ensures s != "" && forall c | c in s :: IsDigit(c)
  {
    if n < 10 then [Digit(n)] else Digits(n / 10) + [Digit(n % 10)]
  }

  /** The digits are those of ten, the units last. */
  lemma InTens(n: nat)
    ensures n < 10 ==> Digits(n) == ["0123456789"[n]]
    ensures n >= 10 ==> Digits(n) == Digits(n / 10) + ["0123456789"[n % 10]]
  {
  }

  /** What digits come to, read after others that came to `n`. */
  function Read(n: nat, s: string): nat
    requires forall c | c in s :: IsDigit(c)
    decreases |s|
  {
    if s == "" then n else Read(n * 10 + Worth(s[0]), s[1..])
  }

  lemma {:induction false} ReadThen(n: nat, s: string, more: string)
    requires forall c | c in s || c in more :: IsDigit(c)
    ensures Read(n, s + more) == Read(Read(n, s), more)
    decreases |s|
  {
    if s == "" {
      assert s + more == more;
    } else {
      assert (s + more)[1..] == s[1..] + more;
      ReadThen(n * 10 + Worth(s[0]), s[1..], more);
    }
  }

  /** Reading what is written gives it back, so no two numbers are written alike. */
  lemma {:induction false} DigitsRead(n: nat)
    ensures Read(0, Digits(n)) == n
  {
    if n >= 10 {
      DigitsRead(n / 10);
      ReadThen(0, Digits(n / 10), [Digit(n % 10)]);
      assert [Digit(n % 10)][1..] == "";
    }
  }

  lemma DigitsInjective(m: nat, n: nat)
    requires Digits(m) == Digits(n)
    ensures m == n
  {
    DigitsRead(m);
    DigitsRead(n);
  }
}
