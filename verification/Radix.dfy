/** Numbers as digit strings, most significant digit first. */
module Radix {
  function Pow(base: nat, n: nat): nat
  {
    if n == 0 then 1 else base * Pow(base, n - 1)
  }

  /** The number that a list of digits denotes. */
  function Value(digits: seq<nat>, base: nat): nat
  {
    if digits == [] then 0 else Value(digits[..|digits| - 1], base) * base + digits[|digits| - 1]
  }

  /** The `count` lowest digits of a number. */
  function Digits(value: nat, base: nat, count: nat): (digits: seq<nat>)
    requires base > 0
    ensures |digits| == count
    decreases count
  {
    if count == 0 then []
    else
      Digits(value / base, base, count - 1) + [value % base]
  }

  ghost predicate Fit(digits: seq<nat>, base: nat)
  {
    forall i :: 0 <= i < |digits| ==> digits[i] < base
  }

  // ---------------------------------------------------------------- arithmetic

  lemma SmallMultiple(d: int, m: nat)
    requires m > 0 && 0 - m < d * m < m
    ensures d == 0
  {
  }

  lemma DivModUnique(x: nat, m: nat, q: nat, r: nat)
    requires m > 0 && r < m && x == q * m + r
    ensures x / m == q && x % m == r
  {
    var d := x / m - q;
    assert x == (x / m) * m + x % m;
    assert d * m == r - x % m;
    SmallMultiple(d, m);
  }

  lemma Distribute(q: nat, b: nat, r: nat, a: nat)
    ensures (q * b + r) * a == q * (a * b) + r * a
  {
    assert q * b * a == q * (a * b);
  }

  lemma DivMod(x: nat, m: nat)
    requires m > 0
    ensures x / m >= 0 && x == (x / m) * m + x % m && x % m < m
  {
  }

  lemma ModProduct(x: nat, a: nat, b: nat)
    requires a > 0 && b > 0
    ensures a * b > 0 && x % (a * b) == ((x / a) % b) * a + x % a
  {
    DivMod(x, a);
    var y, low := x / a, x % a;
    DivMod(y, b);
    var q, r := y / b, y % b;
    Distribute(q, b, r, a);
    ValueBelow(r, low, a, b);
    DivModUnique(x, a * b, q, r * a + low);
  }

  lemma ValueBelow(high: nat, last: nat, base: nat, bound: nat)
    requires high < bound && last < base
    ensures high * base + last < base * bound
  {
    assert (high + 1) * base <= bound * base;
  }

  lemma {:induction false} PowPositive(base: nat, n: nat)
    requires base > 0
    ensures Pow(base, n) > 0
  {
    if n > 0 {
      PowPositive(base, n - 1);
      assert base * Pow(base, n - 1) > 0;
    }
  }

  lemma Associate(a: nat, b: nat, c: nat)
    ensures a * (b * c) == (a * b) * c
  {
  }

  lemma {:induction false} PowAdd(base: nat, a: nat, b: nat)
    ensures Pow(base, a + b) == Pow(base, a) * Pow(base, b)
    decreases a
  {
    if a > 0 {
      PowAdd(base, a - 1, b);
      Associate(base, Pow(base, a - 1), Pow(base, b));
    }
  }

  lemma {:induction false} PowOfPow(base: nat, k: nat, n: nat)
    ensures Pow(Pow(base, k), n) == Pow(base, k * n)
    decreases n
  {
    if n > 0 {
      PowOfPow(base, k, n - 1);
      assert k * n == k + k * (n - 1);
      PowAdd(base, k, k * (n - 1));
    } else {
      assert k * n == 0;
    }
  }

  // ---------------------------------------------------------------- digits and values

  lemma {:induction false} DigitsOfValue(digits: seq<nat>, base: nat)
    requires base > 0 && Fit(digits, base)
    ensures Digits(Value(digits, base), base, |digits|) == digits
    ensures Value(digits, base) < Pow(base, |digits|)
    decreases |digits|
  {
    if digits != [] {
      var init, last := digits[..|digits| - 1], digits[|digits| - 1];
      DigitsOfValue(init, base);
      DivModUnique(Value(digits, base), base, Value(init, base), last);
      ValueBelow(Value(init, base), last, base, Pow(base, |init|));
    }
  }

  lemma QuotientBelow(value: nat, base: nat, bound: nat)
    requires base > 0 && value < base * bound
    ensures value / base < bound
  {
    var q := value / base;
    assert value == q * base + value % base;
    assert q >= bound ==> q * base >= bound * base;
  }

  lemma ValueExtends(digits: seq<nat>, digit: nat, base: nat)
    ensures Value(digits + [digit], base) == Value(digits, base) * base + digit
  {
    assert (digits + [digit])[..|digits|] == digits;
  }

  lemma {:induction false} ValueOfDigits(value: nat, base: nat, count: nat)
    requires base > 0 && value < Pow(base, count)
    ensures Value(Digits(value, base, count), base) == value
    ensures Fit(Digits(value, base, count), base)
    decreases count
  {
    if count > 0 {
      QuotientBelow(value, base, Pow(base, count - 1));
      DivMod(value, base);
      var high := Digits(value / base, base, count - 1);
      ValueOfDigits(value / base, base, count - 1);
      ValueExtends(high, value % base, base);
    }
  }
}
