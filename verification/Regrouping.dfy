/**
 * The two bit-regrouping loops of `web/src/lib/bech32.ts`, which shift an unmasked 32-bit accumulator,
 * compared with the numbers their inputs and outputs denote.
 */
module Regrouping {
  import opened Wrappers
  import opened Radix

  const WORD_LIMIT: nat := 0x1_0000_0000

  datatype Bech32Error =
    | NotLowercase
    | MalformedAddress
    | OtherPrefix
    | InvalidChecksum
    | InvalidData
    | InvalidPadding

  /** `x << k` on 32-bit integers. */
  function ShiftLeft(x: nat, k: nat): nat
  {
    (x * Pow(2, k)) % WORD_LIMIT
  }

  /** `x >>> k`. */
  function ShiftRight(x: nat, k: nat): (y: nat)
  {
    PowPositive(2, k);
    x / Pow(2, k)
  }

  /** `x & ((1 << k) - 1)`. */
  function Low(x: nat, k: nat): (y: nat)
    ensures y < Pow(2, k)
  {
    PowPositive(2, k);
    x % Pow(2, k)
  }

  /** The digits produced and the bits still in the accumulator together denote `n`. */
  ghost predicate Denotes(result: seq<nat>, to: nat, accumulator: nat, bits: nat, n: nat)
  {
    && Fit(result, Pow(2, to))
    && n == Value(result, Pow(2, to)) * Pow(2, bits) + Low(accumulator, bits)
  }

  lemma Pow32()
    ensures Pow(2, 32) == WORD_LIMIT
  {
    PowAdd(2, 16, 16);
    PowAdd(2, 8, 8);
  }

  lemma ModOfMod(x: nat, m: nat, k: nat)
    requires m > 0 && k > 0
    ensures m * k > 0 && (x % (m * k)) % m == x % m
  {
    ModProduct(x, m, k);
    var q := (x / m) % k;
    DivModUnique(x % (m * k), m, q, x % m);
  }

  /** The 32-bit wrap does not reach the low bits that are still needed. */
  lemma WrapKeepsLow(x: nat, bits: nat)
    requires bits <= 32
    ensures Low(x % WORD_LIMIT, bits) == Low(x, bits)
  {
    Pow32();
    PowAdd(2, bits, 32 - bits);
    PowPositive(2, bits);
    PowPositive(2, 32 - bits);
    ModOfMod(x, Pow(2, bits), Pow(2, 32 - bits));
  }

  /** Multiples of the modulus are invisible when added below. */
  lemma LowOfSum(x: nat, y: nat, v: nat, m: nat)
    requires m > 0 && x % m == y % m
    ensures (x + v) % m == (y + v) % m
  {
    var low := x % m + v;
    var t, r := low / m, low % m;
    assert low == t * m + r;
    SumOfMultiples(x / m, t, m);
    SumOfMultiples(y / m, t, m);
    DivModUnique(x + v, m, x / m + t, r);
    DivModUnique(y + v, m, y / m + t, r);
  }

  lemma SumOfMultiples(a: nat, b: nat, m: nat)
    ensures (a + b) * m == a * m + b * m
  {
  }

  lemma DistributeLeft(a: nat, b: nat, c: nat, f: nat)
    ensures (a * b + c) * f == a * (b * f) + c * f
  {
  }

  lemma ScaledMod(x: nat, v: nat, f: nat, b: nat)
    requires b > 0 && v < f
    ensures b * f > 0 && (x * f + v) % (b * f) == (x % b) * f + v
  {
    var q, r := x / b, x % b;
    assert x == q * b + r;
    DistributeLeft(q, b, r, f);
    ValueBelow(r, v, f, b);
    DivModUnique(x * f + v, b * f, q, r * f + v);
  }

  lemma ShiftInLow(x: nat, v: nat, from: nat, bits: nat)
    requires v < Pow(2, from) && bits + from <= 32
    ensures Low(ShiftLeft(x, from) + v, bits + from) == Low(x, bits) * Pow(2, from) + v
  {
    hide Pow;
    var f, b := Pow(2, from), Pow(2, bits);
    PowPositive(2, bits);
    PowAdd(2, bits, from);
    ScaledMod(x, v, f, b);
    WrapKeepsLow(x * f, bits + from);
    LowOfSum(ShiftLeft(x, from), x * f, v, b * f);
  }

  /** Reading one input digit. */
  lemma TakeIn(result: seq<nat>, to: nat, accumulator: nat, bits: nat, n: nat, from: nat, v: nat)
    requires Denotes(result, to, accumulator, bits, n) && v < Pow(2, from) && bits + from <= 32
    ensures Denotes(result, to, ShiftLeft(accumulator, from) + v, bits + from, n * Pow(2, from) + v)
  {
    hide ShiftLeft, Low, Value, Fit, Pow;
    ShiftInLow(accumulator, v, from, bits);
    PowAdd(2, bits, from);
    DistributeLeft(Value(result, Pow(2, to)), Pow(2, bits), Low(accumulator, bits), Pow(2, from));
  }

  /** Splitting the held bits into the next digit and the rest. */
  lemma SplitLow(x: nat, rest: nat, to: nat)
    ensures Low(x, rest + to) == Low(ShiftRight(x, rest), to) * Pow(2, rest) + Low(x, rest)
  {
    hide Pow;
    PowAdd(2, rest, to);
    PowPositive(2, rest);
    PowPositive(2, to);
    ModProduct(x, Pow(2, rest), Pow(2, to));
  }

  lemma Regroup(high: nat, digit: nat, t: nat, r: nat)
    ensures high * (r * t) + digit * r == (high * t + digit) * r
  {
    assert high * (r * t) == (high * t) * r;
  }

  /** Writing one output digit. */
  lemma PushOut(result: seq<nat>, to: nat, accumulator: nat, bits: nat, n: nat)
    requires Denotes(result, to, accumulator, bits, n) && bits >= to
    ensures Denotes(result + [Low(ShiftRight(accumulator, bits - to), to)], to, accumulator, bits - to, n)
  {
    hide Pow, Low, Value, ShiftRight;
    var rest := bits - to;
    var digit := Low(ShiftRight(accumulator, rest), to);
    SplitLow(accumulator, rest, to);
    PowAdd(2, rest, to);
    ValueExtends(result, digit, Pow(2, to));
    Regroup(Value(result, Pow(2, to)), digit, Pow(2, to), Pow(2, rest));
  }

  /** The last, padded digit. */
  lemma PadOut(result: seq<nat>, to: nat, accumulator: nat, bits: nat, n: nat)
    requires Denotes(result, to, accumulator, bits, n) && bits <= to <= 32
    ensures var digit := Low(ShiftLeft(accumulator, to - bits), to);
      && digit == Low(accumulator, bits) * Pow(2, to - bits)
      && Denotes(result + [digit], to, accumulator, 0, n * Pow(2, to - bits))
  {
    LowZero(accumulator);
    hide Pow, Low, Value, ShiftLeft;
    var pad := to - bits;
    PowPositive(2, pad);
    ShiftInLow(accumulator, 0, pad, bits);
    var digit := Low(ShiftLeft(accumulator, pad), to);
    ValueExtends(result, digit, Pow(2, to));
    PowAdd(2, bits, pad);
    DistributeLeft(Value(result, Pow(2, to)), Pow(2, bits), Low(accumulator, bits), Pow(2, pad));
  }

  lemma LowZero(x: nat)
    ensures Pow(2, 0) == 1 && Low(x, 0) == 0
  {
  }

  /** `convertBits`: zero bits are appended until the last output digit is full. */
  method ConvertBits(data: seq<nat>, from: nat, to: nat) returns (result: seq<nat>)
    requires 0 < from <= 8 && 0 < to <= 8 && Fit(data, Pow(2, from))
    ensures Fit(result, Pow(2, to))
    ensures from * |data| <= to * |result| < from * |data| + to
    ensures Value(result, Pow(2, to)) == Value(data, Pow(2, from)) * Pow(2, to * |result| - from * |data|)
  {
    hide ShiftLeft, ShiftRight, Low, Value, Fit, Denotes, Pow;
    var accumulator: nat, bits: nat := 0, 0;
    result := [];
    NothingRead(to);
    for i := 0 to |data|
      invariant Denotes(result, to, accumulator, bits, Value(data[..i], Pow(2, from)))
      invariant to * |result| + bits == from * i && bits < to
    {
      DigitFits(data, i, Pow(2, from));
      accumulator, bits, result := NextDigit(data, i, from, to, accumulator, bits, result);
    }
    assert data[..|data|] == data;
    ghost var n := Value(data, Pow(2, from));
    OneMore(to, |result|);
    if bits > 0 {
      PadOut(result, to, accumulator, bits, n);
      result := result + [Low(ShiftLeft(accumulator, to - bits), to)];
      Finished(result, to, accumulator, n * Pow(2, to - bits));
    } else {
      NoPadding(n);
      Finished(result, to, accumulator, n);
    }
  }

  lemma NoPadding(n: nat)
    ensures n * Pow(2, 0) == n
  {
  }

  lemma NothingRead(to: nat)
    ensures Denotes([], to, 0, 0, Value([], 0)) && forall base :: Value([], base) == Value([], 0)
  {
    PowPositive(2, to);
  }

  lemma DigitFits(digits: seq<nat>, i: nat, base: nat)
    requires Fit(digits, base) && i < |digits|
    ensures digits[i] < base
  {
  }

  lemma Finished(result: seq<nat>, to: nat, accumulator: nat, n: nat)
    requires Denotes(result, to, accumulator, 0, n)
    ensures Fit(result, Pow(2, to)) && Value(result, Pow(2, to)) == n
  {
  }

  /** The body that both loops share: shift one digit in and as many as are complete out. */
  method NextDigit(data: seq<nat>, i: nat, from: nat, to: nat, before: nat, held: nat, done: seq<nat>)
    returns (accumulator: nat, bits: nat, result: seq<nat>)
    requires 0 < from <= 8 && 0 < to <= 8 && i < |data| && data[i] < Pow(2, from)
    requires Denotes(done, to, before, held, Value(data[..i], Pow(2, from)))
    requires to * |done| + held == from * i && held < to
    ensures Denotes(result, to, accumulator, bits, Value(data[..i + 1], Pow(2, from)))
    ensures to * |result| + bits == from * (i + 1) && bits < to
  {
    hide ShiftLeft, ShiftRight, Low, Value, Fit, Denotes;
    accumulator := ShiftLeft(before, from) + data[i];
    bits := held + from;
    result := done;
    ghost var n := Value(data[..i], Pow(2, from)) * Pow(2, from) + data[i];
    TakeIn(done, to, before, held, Value(data[..i], Pow(2, from)), from, data[i]);
    ValueExtends(data[..i], data[i], Pow(2, from));
    assert data[..i + 1] == data[..i] + [data[i]];
    OneMore(from, i);
    bits, result := PushDigits(to, accumulator, bits, done, n);
  }

  lemma OneMore(width: nat, count: nat)
    ensures width * (count + 1) == width * count + width
  {
  }

  /** The inner loop: all digits that are complete. */
  method PushDigits(to: nat, accumulator: nat, held: nat, done: seq<nat>, ghost n: nat) returns (bits: nat, result: seq<nat>)
    requires 0 < to && Denotes(done, to, accumulator, held, n)
    ensures Denotes(result, to, accumulator, bits, n) && bits < to
    ensures to * |result| + bits == to * |done| + held
  {
    hide ShiftRight, Low, Value, Fit, Denotes, Pow;
    bits, result := held, done;
    while bits >= to
      invariant Denotes(result, to, accumulator, bits, n)
      invariant to * |result| + bits == to * |done| + held
    {
      PushOut(result, to, accumulator, bits, n);
      OneMore(to, |result|);
      bits := bits - to;
      result := result + [Low(ShiftRight(accumulator, bits), to)];
    }
  }

  /** `convertWords` without padding: what is left over must be less than a digit, and zero. */
  method ConvertWords(words: seq<nat>, from: nat, to: nat) returns (r: Result<seq<nat>, Bech32Error>)
    requires 0 < from <= 8 && 0 < to <= 8
    ensures r == Err(InvalidData) <==> !Fit(words, Pow(2, from))
    ensures r.Err? && r.error != InvalidData ==> r.error == InvalidPadding
    ensures Fit(words, Pow(2, from)) ==>
      var spare := (from * |words|) % to;
      r.Ok? <==> spare < from && Low(Value(words, Pow(2, from)), spare) == 0
    ensures r.Ok? ==>
      && Fit(r.value, Pow(2, to))
      && to * |r.value| <= from * |words| < to * |r.value| + to
      && Value(words, Pow(2, from)) == Value(r.value, Pow(2, to)) * Pow(2, from * |words| - to * |r.value|)
  {
    hide ShiftLeft, ShiftRight, Low, Value, Denotes, Pow;
    var accumulator: nat, bits: nat, result: seq<nat> := 0, 0, [];
    NothingRead(to);
    for i := 0 to |words|
      invariant Denotes(result, to, accumulator, bits, Value(words[..i], Pow(2, from)))
      invariant to * |result| + bits == from * i && bits < to
      invariant forall k :: 0 <= k < i ==> words[k] < Pow(2, from)
    {
      if words[i] >= Pow(2, from) {
        return Err(InvalidData);
      }
      accumulator, bits, result := NextDigit(words, i, from, to, accumulator, bits, result);
    }
    assert words[..|words|] == words;
    ghost var n := Value(words, Pow(2, from));
    DivModUnique(from * |words|, to, |result|, bits);
    LeftOver(result, to, accumulator, bits, n);
    if bits >= from || Low(ShiftLeft(accumulator, to - bits), to) != 0 {
      return Err(InvalidPadding);
    }
    return Ok(result);
  }

  lemma LeftOver(result: seq<nat>, to: nat, accumulator: nat, bits: nat, n: nat)
    requires Denotes(result, to, accumulator, bits, n) && bits < to <= 8
    ensures Low(ShiftLeft(accumulator, to - bits), to) == 0 <==> Low(n, bits) == 0
    ensures Fit(result, Pow(2, to))
    ensures Low(n, bits) == 0 ==> n == Value(result, Pow(2, to)) * Pow(2, bits)
  {
    hide Pow, Value, ShiftLeft, Fit;
    PadOut(result, to, accumulator, bits, n);
    PowPositive(2, bits);
    PowPositive(2, to - bits);
    DivModUnique(n, Pow(2, bits), Value(result, Pow(2, to)), Low(accumulator, bits));
    PositiveTimes(Low(accumulator, bits), Pow(2, to - bits));
  }

  lemma PositiveTimes(a: nat, b: nat)
    requires b > 0
    ensures a * b == 0 <==> a == 0
  {
  }
}
