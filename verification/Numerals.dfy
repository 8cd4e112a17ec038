/** Decimal numerals of natural numbers. */
module Numerals {
  import opened Common

  predicate IsDigit(b: byte) {
    48 <= b <= 57
  }

  predicate AllDigits(s: seq<byte>) {
    forall i :: 0 <= i < |s| ==> IsDigit(s[i])
  }

  /** The number a string of digits denotes. */
  function Decimal(s: seq<byte>): nat
    requires AllDigits(s)
  {
    if s == [] then 0 else 10 * Decimal(s[..|s| - 1]) + (s[|s| - 1] - 48)
  }

  /** std::to_string of a number. */
  function Decimals(n: nat): (r: seq<byte>)
    ensures r != [] && AllDigits(r)
  {
    if n < 10 then [48 + n] else Decimals(n / 10) + [48 + n % 10]
  }

  lemma {:induction false} DecimalOfDecimals(n: nat)
    ensures Decimal(Decimals(n)) == n
  {
    var s := Decimals(n);
    if n < 10 {
      assert s[..0] == [];
    } else {
      DecimalOfDecimals(n / 10);
      assert s[..|s| - 1] == Decimals(n / 10);
    }
  }

  /** No numeral of `n` is shorter than the printed one. */
  lemma {:induction false} DecimalsShortest(s: seq<byte>)
    requires s != [] && AllDigits(s)
    ensures |Decimals(Decimal(s))| <= |s|
  {
    if |s| > 1 && Decimal(s) >= 10 {
      var head := s[..|s| - 1];
      DecimalsShortest(head);
      assert Decimal(s) / 10 == Decimal(head);
    }
  }

  lemma {:induction false} DecimalOfPrefix(s: seq<byte>, n: nat)
    requires AllDigits(s) && n <= |s|
    ensures Decimal(s[..n]) <= Decimal(s)
    decreases |s|
  {
    if n == |s| {
      assert s[..n] == s;
    } else {
      DecimalOfPrefix(s[..|s| - 1], n);
      assert s[..|s| - 1][..n] == s[..n];
    }
  }
}
