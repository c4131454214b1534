/**
 * The Bech32m checksum of `web/src/lib/bech32.ts`: a linear code over 5-bit symbols. The word
 * operations have names, so that only the lemmas directly about them look inside.
 */
module Checksum {
  const GENERATORS: seq<bv32> := [0x3b6a57b2, 0x26508e6d, 0x1ea119fa, 0x3d4233dd, 0x2a1462b3]
  const BECH32M: bv32 := 0x2bc830a3

  function Xor(a: bv32, b: bv32): bv32 { a ^ b }

  /** The symbol that leaves the register. */
  function Top(checksum: bv32): bv32 { checksum >> 25 }

  /** The register moved up by one symbol. */
  function MoveUp(checksum: bv32): bv32 { (checksum & 0x1ffffff) << 5 }

  predicate Selected(top: bv32, index: nat)
    requires index < 5
  {
    (top >> index) & 1 == 1
  }

  /** What the generators selected by the top symbol contribute. */
  function Feedback(top: bv32, count: nat): bv32
    requires count <= 5
  {
    if count == 0 then 0
    else if Selected(top, count - 1) then Xor(Feedback(top, count - 1), GENERATORS[count - 1])
    else Feedback(top, count - 1)
  }

  function Advance(checksum: bv32, value: bv32): bv32
  {
    Xor(Xor(MoveUp(checksum), value), Feedback(Top(checksum), 5))
  }

  function PolymodFrom(start: bv32, values: seq<bv32>): bv32
  {
    if values == [] then start else Advance(PolymodFrom(start, values[..|values| - 1]), values[|values| - 1])
  }

  /** `polymod`. */
  method Polymod(values: seq<bv32>) returns (checksum: bv32)
    ensures checksum == PolymodFrom(1, values)
  {
    hide Xor, Top, MoveUp, Feedback;
    checksum := 1;
    for i := 0 to |values|
      invariant checksum == PolymodFrom(1, values[..i])
    {
      assert values[..i + 1][..i] == values[..i];
      checksum := AddFeedback(Xor(MoveUp(checksum), values[i]), Top(checksum));
    }
    assert values[..|values|] == values;
  }

  /** The inner loop over the generators. */
  method AddFeedback(shifted: bv32, top: bv32) returns (checksum: bv32)
    ensures checksum == Xor(shifted, Feedback(top, 5))
  {
    hide Xor, Feedback, Selected;
    checksum := shifted;
    NoFeedback(shifted, top);
    for index := 0 to 5
      invariant checksum == Xor(shifted, Feedback(top, index))
    {
      FeedbackStep(shifted, top, index);
      if Selected(top, index) {
        checksum := Xor(checksum, GENERATORS[index]);
      }
    }
  }

  lemma NoFeedback(shifted: bv32, top: bv32)
    ensures Xor(shifted, Feedback(top, 0)) == shifted
  {
  }

  lemma FeedbackStep(shifted: bv32, top: bv32, index: nat)
    requires index < 5
    ensures Xor(shifted, Feedback(top, index + 1))
      == if Selected(top, index) then Xor(Xor(shifted, Feedback(top, index)), GENERATORS[index])
         else Xor(shifted, Feedback(top, index))
  {
    hide Selected, Xor;
    XorAssociates(shifted, Feedback(top, index), GENERATORS[index]);
  }

  lemma XorAssociates(a: bv32, b: bv32, c: bv32)
    ensures Xor(Xor(a, b), c) == Xor(a, Xor(b, c))
  {
  }

  lemma XorCommutes(a: bv32, b: bv32)
    ensures Xor(a, b) == Xor(b, a)
  {
  }

  lemma XorZero(a: bv32)
    ensures Xor(a, 0) == a && Xor(0, a) == a && Xor(a, a) == 0
  {
  }

  // ---------------------------------------------------------------- linearity

  /** A value with a symbol put behind it. */
  function Fold(d: bv32, w: bv32): bv32 { Xor(Up(d), w) }

  function Up(d: bv32): bv32 { d << 5 }

  lemma TopUnchanged(c: bv32, d: bv32)
    requires d < 0x2000000
    ensures Top(Xor(c, d)) == Top(c)
  {
  }

  lemma MoveUpSplits(c: bv32, d: bv32)
    requires d < 0x2000000
    ensures MoveUp(Xor(c, d)) == Xor(MoveUp(c), Up(d))
  {
  }

  lemma RestMoves(c: bv32, d: bv32, w: bv32)
    requires d < 0x2000000
    ensures Xor(MoveUp(Xor(c, d)), w) == Xor(Xor(MoveUp(c), 0), Fold(d, w))
  {
    hide Xor, MoveUp, Up;
    MoveUpSplits(c, d);
    XorAssociates(MoveUp(c), Up(d), w);
    XorZero(MoveUp(c));
  }

  /** A change below the top symbol moves up by one symbol; a change of the input appears unchanged. */
  lemma AdvanceIsLinear(c: bv32, d: bv32, w: bv32)
    requires d < 0x2000000
    ensures Advance(Xor(c, d), w) == Xor(Advance(c, 0), Fold(d, w))
  {
    hide Feedback, Xor, MoveUp, Top, Fold;
    TopUnchanged(c, d);
    RestMoves(c, d, w);
    var m, f, x := Xor(MoveUp(c), 0), Feedback(Top(c), 5), Fold(d, w);
    XorAssociates(m, x, f);
    XorCommutes(x, f);
    XorAssociates(m, f, x);
  }

  lemma FirstStep(z: bv32, w: bv32)
    ensures Advance(z, w) == Xor(Advance(z, 0), w)
  {
    hide Advance, Xor, Fold;
    XorZero(z);
    AdvanceIsLinear(z, 0, w);
    FoldZero(w);
  }

  lemma FoldZero(w: bv32)
    ensures Fold(0, w) == w
  {
  }

  lemma FoldGrows(d: bv32, w: bv32)
    requires w < 32
    ensures d < 0x20 ==> Fold(d, w) < 0x400
    ensures d < 0x400 ==> Fold(d, w) < 0x8000
    ensures d < 0x8000 ==> Fold(d, w) < 0x100000
    ensures d < 0x100000 ==> Fold(d, w) < 0x2000000
    ensures d < 0x2000000 ==> Fold(d, w) < 0x40000000
  {
  }

  // ---------------------------------------------------------------- thirty-bit values

  lemma {:induction false} FeedbackIsSmall(top: bv32, count: nat)
    requires count <= 5
    ensures Feedback(top, count) < 0x40000000
    decreases count
  {
    hide Selected, Xor;
    if count > 0 {
      FeedbackIsSmall(top, count - 1);
      GeneratorsAreSmall(count - 1);
      XorIsSmall(Feedback(top, count - 1), GENERATORS[count - 1]);
    }
  }

  lemma GeneratorsAreSmall(index: nat)
    requires index < 5
    ensures GENERATORS[index] < 0x40000000
  {
  }

  lemma XorIsSmall(a: bv32, b: bv32)
    requires a < 0x40000000 && b < 0x40000000
    ensures Xor(a, b) < 0x40000000
  {
  }

  lemma MoveUpIsSmall(c: bv32)
    ensures MoveUp(c) < 0x40000000
  {
  }

  lemma {:induction false} PolymodIsSmall(values: seq<bv32>)
    requires forall i :: 0 <= i < |values| ==> values[i] < 0x40000000
    ensures PolymodFrom(1, values) < 0x40000000
    decreases |values|
  {
    hide Feedback, MoveUp, Top, Xor;
    if values != [] {
      var c, w := PolymodFrom(1, values[..|values| - 1]), values[|values| - 1];
      PolymodIsSmall(values[..|values| - 1]);
      MoveUpIsSmall(c);
      XorIsSmall(MoveUp(c), w);
      FeedbackIsSmall(Top(c), 5);
      XorIsSmall(Xor(MoveUp(c), w), Feedback(Top(c), 5));
    }
  }

  // ---------------------------------------------------------------- six symbols

  ghost predicate Symbols(w: seq<bv32>)
  {
    forall i :: 0 <= i < |w| ==> w[i] < 32
  }

  /** Six symbols as one 30-bit number. */
  function Packed(w: seq<bv32>): bv32
    requires |w| == 6
  {
    Fold(Fold(Fold(Fold(Fold(w[0], w[1]), w[2]), w[3]), w[4]), w[5])
  }

  /** `x >>> (5 * symbols)`. */
  function Down(x: bv32, symbols: nat): bv32
    requires symbols <= 5
  {
    match symbols
    case 0 => x
    case 1 => x >> 5
    case 2 => x >> 10
    case 3 => x >> 15
    case 4 => x >> 20
    case _ => x >> 25
  }

  function LowSymbol(x: bv32): bv32 { x & 31 }

  /** The checksum symbols, the highest first. */
  function Unpacked(mod: bv32): (symbols: seq<bv32>)
    ensures |symbols| == 6
  {
    [LowSymbol(Down(mod, 5)), LowSymbol(Down(mod, 4)), LowSymbol(Down(mod, 3)),
     LowSymbol(Down(mod, 2)), LowSymbol(Down(mod, 1)), LowSymbol(Down(mod, 0))]
  }

  lemma Unfold(d: bv32, w: bv32)
    requires w < 32 && d < 0x2000000
    ensures LowSymbol(Fold(d, w)) == w && Down(Fold(d, w), 1) == d
  {
  }

  lemma Refold(x: bv32)
    ensures LowSymbol(x) < 32 && Fold(Down(x, 1), LowSymbol(x)) == x
  {
  }

  lemma DownTwice(x: bv32)
    ensures Down(Down(x, 1), 1) == Down(x, 2)
  {
  }

  lemma DownThrice(x: bv32)
    ensures Down(Down(x, 2), 1) == Down(x, 3)
  {
  }

  lemma DownFour(x: bv32)
    ensures Down(Down(x, 3), 1) == Down(x, 4)
  {
  }

  lemma DownFive(x: bv32)
    ensures Down(Down(x, 4), 1) == Down(x, 5)
  {
  }

  lemma DownAdds(x: bv32)
    ensures Down(Down(x, 1), 1) == Down(x, 2) && Down(Down(x, 2), 1) == Down(x, 3)
    ensures Down(Down(x, 3), 1) == Down(x, 4) && Down(Down(x, 4), 1) == Down(x, 5)
  {
    hide Down;
    DownTwice(x);
    DownThrice(x);
    DownFour(x);
    DownFive(x);
  }

  lemma NoShift(x: bv32)
    ensures Down(x, 0) == x
  {
  }

  lemma TopSymbol(x: bv32)
    requires x < 0x40000000
    ensures LowSymbol(Down(x, 5)) == Down(x, 5) < 32
  {
  }

  lemma SmallSymbol(x: bv32)
    requires x < 32
    ensures LowSymbol(x) == x
  {
  }

  lemma PackedUnpacked(mod: bv32)
    requires mod < 0x40000000
    ensures Symbols(Unpacked(mod)) && Packed(Unpacked(mod)) == mod
  {
    hide Fold, Down, LowSymbol;
    TopSymbol(mod);
    Refold(Down(mod, 4));
    Refold(Down(mod, 3));
    Refold(Down(mod, 2));
    Refold(Down(mod, 1));
    Refold(Down(mod, 0));
    DownAdds(mod);
    NoShift(mod);
  }

  lemma UnpackedPacked(w: seq<bv32>)
    requires |w| == 6 && Symbols(w)
    ensures Packed(w) < 0x40000000 && Unpacked(Packed(w)) == w
  {
    var d1 := w[0];
    var d2 := Fold(d1, w[1]);
    var d3 := Fold(d2, w[2]);
    var d4 := Fold(d3, w[3]);
    var d5 := Fold(d4, w[4]);
    var mod := Fold(d5, w[5]);
    hide Fold, Down, LowSymbol;
    FoldGrows(d1, w[1]);
    FoldGrows(d2, w[2]);
    FoldGrows(d3, w[3]);
    FoldGrows(d4, w[4]);
    FoldGrows(d5, w[5]);
    Unfold(d1, w[1]);
    Unfold(d2, w[2]);
    Unfold(d3, w[3]);
    Unfold(d4, w[4]);
    Unfold(d5, w[5]);
    DownAdds(mod);
    NoShift(mod);
    SmallSymbol(d1);
  }

  lemma LastSixUnroll(c: bv32, w: seq<bv32>)
    requires |w| == 6
    ensures PolymodFrom(c, w)
      == Advance(Advance(Advance(Advance(Advance(Advance(c, w[0]), w[1]), w[2]), w[3]), w[4]), w[5])
  {
    hide Advance, PolymodFrom;
    var w1, w2, w3, w4, w5 := [w[0]], [w[0], w[1]], [w[0], w[1], w[2]], w[..4], w[..5];
    assert w == w5 + [w[5]] && w5 == w4 + [w[4]] && w4 == w3 + [w[3]] && w3 == w2 + [w[2]];
    assert w2 == w1 + [w[1]] && w1 == [] + [w[0]];
    Appended(c, w5, w[5]);
    Appended(c, w4, w[4]);
    Appended(c, w3, w[3]);
    Appended(c, w2, w[2]);
    Appended(c, w1, w[1]);
    Appended(c, [], w[0]);
    NothingRead(c);
  }

  lemma Appended(c: bv32, values: seq<bv32>, value: bv32)
    ensures PolymodFrom(c, values + [value]) == Advance(PolymodFrom(c, values), value)
  {
    hide Advance;
    assert (values + [value])[..|values|] == values;
  }

  lemma NothingRead(c: bv32)
    ensures PolymodFrom(c, []) == c
  {
  }

  /** The last six symbols enter the checksum by exclusive or: `polymod` is linear in them. */
  lemma LastSixAreLinear(c: bv32, w: seq<bv32>)
    requires |w| == 6 && Symbols(w)
    ensures PolymodFrom(c, w) == Xor(PolymodFrom(c, [0, 0, 0, 0, 0, 0]), Packed(w))
  {
    hide Advance, Xor, Fold, PolymodFrom;
    LastSixUnroll(c, w);
    LastSixUnroll(c, [0, 0, 0, 0, 0, 0]);
    var z1 := Advance(c, 0);
    var z2 := Advance(z1, 0);
    var z3 := Advance(z2, 0);
    var z4 := Advance(z3, 0);
    var z5 := Advance(z4, 0);
    var d2 := Fold(w[0], w[1]);
    var d3 := Fold(d2, w[2]);
    var d4 := Fold(d3, w[3]);
    var d5 := Fold(d4, w[4]);
    FoldGrows(w[0], w[1]);
    FoldGrows(d2, w[2]);
    FoldGrows(d3, w[3]);
    FoldGrows(d4, w[4]);
    FirstStep(c, w[0]);
    AdvanceIsLinear(z1, w[0], w[1]);
    AdvanceIsLinear(z2, d2, w[2]);
    AdvanceIsLinear(z3, d3, w[3]);
    AdvanceIsLinear(z4, d4, w[4]);
    AdvanceIsLinear(z5, d5, w[5]);
  }

  lemma {:induction false} PolymodSplits(c: bv32, a: seq<bv32>, b: seq<bv32>)
    ensures PolymodFrom(c, a + b) == PolymodFrom(PolymodFrom(c, a), b)
    decreases |b|
  {
    hide Advance;
    if b == [] {
      assert a + b == a;
    } else {
      assert (a + b)[..|a + b| - 1] == a + b[..|b| - 1];
      PolymodSplits(c, a, b[..|b| - 1]);
    }
  }

  /**
   * The six checksum symbols are determined by what stands before them: a list passes the check
   * exactly when it ends in the symbols that the encoder computes.
   */
  lemma ChecksumIsUnique(values: seq<bv32>, w: seq<bv32>)
    requires |w| == 6 && Symbols(w)
    requires forall i :: 0 <= i < |values| ==> values[i] < 0x40000000
    ensures PolymodFrom(1, values + w) == BECH32M
      <==> w == Unpacked(Xor(PolymodFrom(1, values + [0, 0, 0, 0, 0, 0]), BECH32M))
  {
    hide Advance, Packed, Unpacked, Xor, PolymodFrom;
    var zeros := [0, 0, 0, 0, 0, 0];
    PolymodSplits(1, values, w);
    PolymodSplits(1, values, zeros);
    LastSixAreLinear(PolymodFrom(1, values), w);
    PolymodIsSmall(values + zeros);
    OnlySymbols(PolymodFrom(1, values + zeros), w);
  }

  lemma OnlySymbols(base: bv32, w: seq<bv32>)
    requires base < 0x40000000 && |w| == 6 && Symbols(w)
    ensures Xor(base, Packed(w)) == BECH32M <==> w == Unpacked(Xor(base, BECH32M))
  {
    hide Packed, Unpacked, Xor;
    XorIsSmall(base, BECH32M);
    PackedUnpacked(Xor(base, BECH32M));
    UnpackedPacked(w);
    XorCancels(base, Packed(w), BECH32M);
  }

  lemma XorCancels(a: bv32, b: bv32, c: bv32)
    ensures Xor(a, b) == c <==> b == Xor(a, c)
  {
    hide Xor;
    XorAssociates(a, a, b);
    XorAssociates(a, a, c);
    XorZero(a);
    XorZero(b);
    XorZero(c);
  }
}
