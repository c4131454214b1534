/**
 * Addresses as text: Bech32m encoding and decoding (`web/src/lib/bech32.ts`), as specified in BIP-173
 * with the constant of BIP-350.
 */
module Bech32 {
  import opened Wrappers
  import opened Radix
  import opened Regrouping
  import opened Checksum

  const CHARSET: string := "qpzry9x8gf2tvdw0s3jn54khce6mua7l"
  const SEPARATOR: char := '1'

  // ---------------------------------------------------------------- the alphabet

  lemma CharsetSize()
    ensures |CHARSET| == 32
  {
  }

  lemma CharsetDistinct(i: nat, j: nat)
    requires i < |CHARSET| && j < |CHARSET| && CHARSET[i] == CHARSET[j]
    ensures i == j
  {
    if i < j {
      LaterDiffers(i, j);
    } else if j < i {
      LaterDiffers(j, i);
    }
  }

  lemma LaterDiffers(i: nat, j: nat)
    requires i < j < 32
    ensures |CHARSET| == 32 && CHARSET[i] != CHARSET[j]
  {
  }

  /** The characters that `toLowerCase` changes: a parameter, known to be the capitals on ASCII. */
  ghost predicate LetterCase(upper: char -> bool)
  {
    forall c: char :: (c as int) < 128 ==> (upper(c) <==> 'A' <= c <= 'Z')
  }

  /** No letter of the alphabet is upper case, and the separator is not in it. */
  lemma CharsetPlain(i: nat, upper: char -> bool)
    requires i < |CHARSET| && LetterCase(upper)
    ensures CHARSET[i] != SEPARATOR && !upper(CHARSET[i])
  {
    CharsetIsAscii(i);
  }

  lemma CharsetIsAscii(i: nat)
    requires i < |CHARSET|
    ensures CHARSET[i] != SEPARATOR && (CHARSET[i] as int) < 128 && !('A' <= CHARSET[i] <= 'Z')
  {
  }

  /** `CHARSET.indexOf`, from a position on. */
  function IndexFrom(c: char, start: nat): (index: Option<nat>)
    ensures index.Some? ==> index.value < |CHARSET| && CHARSET[index.value] == c
    ensures index.None? ==> forall i :: start <= i < |CHARSET| ==> CHARSET[i] != c
    decreases |CHARSET| - start
  {
    if start >= |CHARSET| then None
    else if CHARSET[start] == c then Some(start)
    else IndexFrom(c, start + 1)
  }

  lemma IndexOfLetter(v: nat)
    requires v < |CHARSET|
    ensures IndexFrom(CHARSET[v], 0) == Some(v)
  {
    var found := IndexFrom(CHARSET[v], 0);
    assert found.Some?;
    CharsetDistinct(found.value, v);
  }

  function Letters(values: seq<nat>): (text: string)
    requires Fit(values, 32)
    ensures |text| == |values|
  {
    CharsetSize();
    seq(|values|, i requires 0 <= i < |values| => CHARSET[values[i]])
  }

  function Indices(text: string): (values: Option<seq<nat>>)
    ensures values.Some? ==> |values.value| == |text| && Fit(values.value, 32)
    ensures values.Some? ==> forall i :: 0 <= i < |text| ==> IndexFrom(text[i], 0) == Some(values.value[i])
    ensures values.None? ==> exists i :: 0 <= i < |text| && IndexFrom(text[i], 0).None?
  {
    CharsetSize();
    if text == [] then Some([])
    else
      match Indices(text[..|text| - 1])
      case None => None
      case Some(rest) =>
        match IndexFrom(text[|text| - 1], 0)
        case None => None
        case Some(v) => Some(rest + [v])
  }

  lemma IndicesOfLetters(values: seq<nat>)
    requires Fit(values, 32)
    ensures Indices(Letters(values)) == Some(values)
  {
    CharsetSize();
    forall i | 0 <= i < |values| ensures IndexFrom(Letters(values)[i], 0) == Some(values[i]) {
      IndexOfLetter(values[i]);
    }
    var found := Indices(Letters(values));
    assert found.Some?;
    forall i | 0 <= i < |values| ensures found.value[i] == values[i] {
      assert IndexFrom(Letters(values)[i], 0) == Some(found.value[i]);
    }
    assert found.value == values;
  }

  lemma LettersOfIndices(text: string)
    requires Indices(text).Some?
    ensures Letters(Indices(text).value) == text
  {
    CharsetSize();
    var values := Indices(text).value;
    forall i | 0 <= i < |text| ensures Letters(values)[i] == text[i] {
      assert IndexFrom(text[i], 0) == Some(values[i]);
    }
  }

  // ---------------------------------------------------------------- regrouping

  /** Bytes as 5-bit words, the last word filled up with zero bits. */
  function Words(bytes: seq<nat>): seq<nat>
  {
    var count := (8 * |bytes| + 4) / 5;
    Digits(Value(bytes, 256) * Pow(2, 5 * count - 8 * |bytes|), 32, count)
  }

  /** 5-bit words as bytes; what is left over must be less than a word, and zero. */
  function Bytes(words: seq<nat>): Result<seq<nat>, Bech32Error>
  {
    var spare := 5 * |words| % 8;
    PowPositive(2, spare);
    if exists i :: 0 <= i < |words| && words[i] >= 32 then Err(InvalidData)
    else if spare >= 5 || Low(Value(words, 32), spare) != 0 then Err(InvalidPadding)
    else Ok(Digits(Value(words, 32) / Pow(2, spare), 256, 5 * |words| / 8))
  }

  lemma Powers()
    ensures Pow(2, 5) == 32 && Pow(2, 8) == 256
  {
  }

  method ToWords(bytes: seq<nat>) returns (words: seq<nat>)
    requires Fit(bytes, 256)
    ensures words == Words(bytes)
  {
    Powers();
    words := ConvertBits(bytes, 8, 5);
    DigitsOfValue(words, 32);
    assert |words| == (8 * |bytes| + 4) / 5;
  }

  method ToBytes(words: seq<nat>) returns (r: Result<seq<nat>, Bech32Error>)
    ensures r == Bytes(words)
  {
    Powers();
    r := ConvertWords(words, 5, 8);
    if r.Ok? {
      var spare := 5 * |words| % 8;
      DivModUnique(5 * |words|, 8, |r.value|, 5 * |words| - 8 * |r.value|);
      PowPositive(2, spare);
      DivModUnique(Value(words, 32), Pow(2, spare), Value(r.value, 256), 0);
      DigitsOfValue(r.value, 256);
    }
  }

  /** Appending the zero bits keeps the number within the words. */
  lemma PaddedFits(value: nat, bytes: nat, words: nat)
    requires value < Pow(256, bytes) && 8 * bytes <= 5 * words
    ensures value * Pow(2, 5 * words - 8 * bytes) < Pow(32, words)
  {
    hide Pow;
    Powers();
    PowOfPow(2, 8, bytes);
    PowOfPow(2, 5, words);
    PowAdd(2, 8 * bytes, 5 * words - 8 * bytes);
    PowPositive(2, 5 * words - 8 * bytes);
    ScaledBelow(value, Pow(256, bytes), Pow(2, 5 * words - 8 * bytes));
  }

  lemma ScaledBelow(a: nat, b: nat, p: nat)
    requires a < b && p > 0
    ensures a * p < b * p
  {
  }

  lemma WordsOfBytes(bytes: seq<nat>)
    requires Fit(bytes, 256)
    ensures Fit(Words(bytes), 32) && |Words(bytes)| == (8 * |bytes| + 4) / 5
    ensures Value(Words(bytes), 32) == Value(bytes, 256) * Pow(2, 5 * |Words(bytes)| - 8 * |bytes|)
  {
    hide Pow, Value, Digits;
    var count := (8 * |bytes| + 4) / 5;
    DigitsOfValue(bytes, 256);
    PaddedFits(Value(bytes, 256), |bytes|, count);
    ValueOfDigits(Value(bytes, 256) * Pow(2, 5 * count - 8 * |bytes|), 32, count);
  }

  /** Regrouping bytes into words and back gives the bytes. */
  lemma BytesOfWords(bytes: seq<nat>)
    requires Fit(bytes, 256)
    ensures Bytes(Words(bytes)) == Ok(bytes)
  {
    hide Pow, Value, Digits;
    WordsOfBytes(bytes);
    var words := Words(bytes);
    var spare := 5 * |words| - 8 * |bytes|;
    assert spare == 5 * |words| % 8 && |bytes| == 5 * |words| / 8;
    PowPositive(2, spare);
    DivModUnique(Value(words, 32), Pow(2, spare), Value(bytes, 256), 0);
    DigitsOfValue(bytes, 256);
  }

  lemma ValueDivides(words: seq<nat>, spare: nat)
    requires Low(Value(words, 32), spare) == 0
    ensures Pow(2, spare) > 0
    ensures Value(words, 32) == (Value(words, 32) / Pow(2, spare)) * Pow(2, spare)
  {
    PowPositive(2, spare);
  }

  /** And the other way: words that decode are the words of what they decode to. */
  lemma WordsOfDecoded(words: seq<nat>)
    requires Bytes(words).Ok?
    ensures Fit(words, 32) && Fit(Bytes(words).value, 256) && Words(Bytes(words).value) == words
  {
    hide Pow, Value, Digits;
    assert Fit(words, 32);
    var spare := 5 * |words| % 8;
    var count := 5 * |words| / 8;
    ValueDivides(words, spare);
    var high := Value(words, 32) / Pow(2, spare);
    DigitsOfValue(words, 32);
    HighFits(high, count, spare, |words|);
    ValueOfDigits(high, 256, count);
    var bytes := Digits(high, 256, count);
    assert (8 * |bytes| + 4) / 5 == |words| && 5 * |words| - 8 * |bytes| == spare;
  }

  lemma HighFits(high: nat, bytes: nat, spare: nat, words: nat)
    requires 5 * words == 8 * bytes + spare && Pow(2, spare) > 0
    requires high * Pow(2, spare) < Pow(32, words)
    ensures high < Pow(256, bytes)
  {
    hide Pow;
    Powers();
    PowOfPow(2, 8, bytes);
    PowOfPow(2, 5, words);
    PowAdd(2, 8 * bytes, spare);
    if high >= Pow(256, bytes) {
      ScaledAtLeast(high, Pow(256, bytes), Pow(2, spare));
    }
  }

  lemma ScaledAtLeast(a: nat, b: nat, p: nat)
    requires a >= b
    ensures a * p >= b * p
  {
  }

  // ---------------------------------------------------------------- checksums

  /** `expandHrp`: the high bits of each character, a zero, the low bits. */
  function ExpandHrp(hrp: string): seq<bv32>
  {
    seq(|hrp|, i requires 0 <= i < |hrp| => ((hrp[i] as nat) / 32) as bv32)
    + [0]
    + seq(|hrp|, i requires 0 <= i < |hrp| => ((hrp[i] as nat) % 32) as bv32)
  }

  function AsSymbol(word: nat): bv32
    requires word < 32
  {
    word as bv32
  }

  function AsSymbols(words: seq<nat>): (symbols: seq<bv32>)
    requires Fit(words, 32)
    ensures |symbols| == |words|
  {
    seq(|words|, i requires 0 <= i < |words| => AsSymbol(words[i]))
  }

  function AsWord(symbol: bv32): nat { symbol as nat }

  function AsWords(symbols: seq<bv32>): (words: seq<nat>)
    ensures |words| == |symbols|
  {
    seq<nat>(|symbols|, i requires 0 <= i < |symbols| => AsWord(symbols[i]))
  }

  lemma SymbolOfWord(word: nat)
    requires word < 32
    ensures AsSymbol(word) < 32 && AsWord(AsSymbol(word)) == word
  {
  }

  lemma WordOfSymbol(symbol: bv32)
    requires symbol < 32
    ensures AsWord(symbol) < 32 && AsSymbol(AsWord(symbol)) == symbol
  {
  }

  /** The six checksum words for a prefix and its data words. */
  function ChecksumOf(hrp: string, words: seq<nat>): (sum: seq<nat>)
    requires Fit(words, 32)
    ensures |sum| == 6
  {
    AsWords(Unpacked(Xor(PolymodFrom(1, ExpandHrp(hrp) + AsSymbols(words) + [0, 0, 0, 0, 0, 0]), BECH32M)))
  }

  predicate Checks(hrp: string, values: seq<nat>)
    requires Fit(values, 32)
  {
    PolymodFrom(1, ExpandHrp(hrp) + AsSymbols(values)) == BECH32M
  }

  lemma HrpIsSmall(hrp: string)
    ensures forall i :: 0 <= i < |ExpandHrp(hrp)| ==> ExpandHrp(hrp)[i] < 0x40000000
  {
    forall i | 0 <= i < |hrp| ensures ((hrp[i] as nat) / 32) as bv32 < 0x40000000 && ((hrp[i] as nat) % 32) as bv32 < 0x40000000 {
      NumberIsSmall((hrp[i] as nat) / 32);
      NumberIsSmall((hrp[i] as nat) % 32);
    }
  }

  lemma NumberIsSmall(x: nat)
    requires x < 0x110000
    ensures x as bv32 < 0x40000000
  {
  }

  lemma ChecksumFits(hrp: string, words: seq<nat>)
    requires Fit(words, 32)
    ensures Fit(ChecksumOf(hrp, words), 32)
    ensures Checks(hrp, words + ChecksumOf(hrp, words))
  {
    hide PolymodFrom, Xor, Unpacked, AsSymbol, AsWord, ExpandHrp;
    var before := ExpandHrp(hrp) + AsSymbols(words);
    var base := PolymodFrom(1, before + [0, 0, 0, 0, 0, 0]);
    WordsAreSmall(hrp, words);
    PolymodIsSmall(before + [0, 0, 0, 0, 0, 0]);
    XorIsSmall(base, BECH32M);
    var sum := Unpacked(Xor(base, BECH32M));
    PackedUnpacked(Xor(base, BECH32M));
    ChecksumIsUnique(before, sum);
    SymbolsRoundTrip(sum);
    AppendSymbols(hrp, words, AsWords(sum));
  }

  lemma SymbolsRoundTrip(symbols: seq<bv32>)
    requires Symbols(symbols)
    ensures Fit(AsWords(symbols), 32) && AsSymbols(AsWords(symbols)) == symbols
  {
    forall i | 0 <= i < |symbols| ensures AsWord(symbols[i]) < 32 && AsSymbol(AsWord(symbols[i])) == symbols[i] {
      WordOfSymbol(symbols[i]);
    }
  }

  lemma WordsRoundTrip(words: seq<nat>)
    requires Fit(words, 32)
    ensures Symbols(AsSymbols(words)) && AsWords(AsSymbols(words)) == words
  {
    forall i | 0 <= i < |words| ensures AsSymbol(words[i]) < 32 && AsWord(AsSymbol(words[i])) == words[i] {
      SymbolOfWord(words[i]);
    }
  }

  lemma AppendSymbols(hrp: string, words: seq<nat>, sum: seq<nat>)
    requires Fit(words, 32) && Fit(sum, 32)
    ensures Fit(words + sum, 32)
    ensures ExpandHrp(hrp) + AsSymbols(words + sum) == ExpandHrp(hrp) + AsSymbols(words) + AsSymbols(sum)
  {
    hide AsSymbol, ExpandHrp;
    assert AsSymbols(words + sum) == AsSymbols(words) + AsSymbols(sum);
  }

  lemma WordsAreSmall(hrp: string, words: seq<nat>)
    requires Fit(words, 32)
    ensures forall i :: 0 <= i < |ExpandHrp(hrp) + AsSymbols(words)| ==> (ExpandHrp(hrp) + AsSymbols(words))[i] < 0x40000000
  {
    HrpIsSmall(hrp);
    forall i | 0 <= i < |words| ensures AsSymbols(words)[i] < 0x40000000 {
      SymbolOfWord(words[i]);
    }
  }

  /** Values that pass the check end in the checksum of what precedes it. */
  lemma ChecksumIsForced(hrp: string, words: seq<nat>, sum: seq<nat>)
    requires Fit(words, 32) && Fit(sum, 32) && |sum| == 6 && Fit(words + sum, 32)
    requires Checks(hrp, words + sum)
    ensures sum == ChecksumOf(hrp, words)
  {
    hide PolymodFrom, Xor, Unpacked, AsSymbol, AsWord, ExpandHrp;
    WordsAreSmall(hrp, words);
    WordsRoundTrip(sum);
    AppendSymbols(hrp, words, sum);
    ChecksumIsUnique(ExpandHrp(hrp) + AsSymbols(words), AsSymbols(sum));
  }

  // ---------------------------------------------------------------- text

  /** `encodeBech32m`. */
  function Encode(hrp: string, bytes: seq<nat>): string
    requires Fit(bytes, 256)
  {
    WordsOfBytes(bytes);
    var words := Words(bytes);
    ChecksumFits(hrp, words);
    AppendSymbols(hrp, words, ChecksumOf(hrp, words));
    hrp + [SEPARATOR] + Letters(words + ChecksumOf(hrp, words))
  }

  /** A text is its own `toLowerCase` exactly when none of its characters changes. */
  predicate Lowercase(text: string, upper: char -> bool)
  {
    forall i :: 0 <= i < |text| ==> !upper(text[i])
  }

  /** `lastIndexOf`. */
  function LastSeparator(text: string): (at: Option<nat>)
    ensures at.Some? ==> at.value < |text| && text[at.value] == SEPARATOR
    ensures at.Some? ==> forall i :: at.value < i < |text| ==> text[i] != SEPARATOR
    ensures at.None? ==> SEPARATOR !in text
  {
    if text == [] then None
    else if text[|text| - 1] == SEPARATOR then Some(|text| - 1)
    else LastSeparator(text[..|text| - 1])
  }

  /** `decodeBech32m`. */
  function Decode(text: string, expectedHrp: string, upper: char -> bool): Result<seq<nat>, Bech32Error>
  {
    var separator := LastSeparator(text);
    if !Lowercase(text, upper) then Err(NotLowercase)
    else if separator.None? || separator.value < 1 || separator.value + 7 > |text| then Err(MalformedAddress)
    else if text[..separator.value] != expectedHrp then Err(OtherPrefix)
    else
      match Indices(text[separator.value + 1..])
      case None => Err(MalformedAddress)
      case Some(values) =>
        if !Checks(expectedHrp, values) then Err(InvalidChecksum) else Bytes(values[..|values| - 6])
  }

  method EncodeText(hrp: string, bytes: seq<nat>) returns (text: string)
    requires Fit(bytes, 256)
    ensures text == Encode(hrp, bytes)
  {
    hide PolymodFrom, Xor, Unpacked, Words, ExpandHrp, AsSymbols;
    WordsOfBytes(bytes);
    var words := ToWords(bytes);
    var mod := Polymod(ExpandHrp(hrp) + AsSymbols(words) + [0, 0, 0, 0, 0, 0]);
    var sum := AsWords(Unpacked(Xor(mod, BECH32M)));
    ChecksumFits(hrp, words);
    AppendSymbols(hrp, words, sum);
    text := hrp + [SEPARATOR] + Letters(words + sum);
  }

  method DecodeText(text: string, expectedHrp: string, upper: char -> bool) returns (r: Result<seq<nat>, Bech32Error>)
    ensures r == Decode(text, expectedHrp, upper)
  {
    hide PolymodFrom, ExpandHrp, AsSymbols, Bytes, Indices, LastSeparator;
    if !Lowercase(text, upper) {
      return Err(NotLowercase);
    }
    var separator := LastSeparator(text);
    if separator.None? || separator.value < 1 || separator.value + 7 > |text| {
      return Err(MalformedAddress);
    }
    if text[..separator.value] != expectedHrp {
      return Err(OtherPrefix);
    }
    var values := Indices(text[separator.value + 1..]);
    if values.None? {
      return Err(MalformedAddress);
    }
    var mod := Polymod(ExpandHrp(expectedHrp) + AsSymbols(values.value));
    if mod != BECH32M {
      return Err(InvalidChecksum);
    }
    r := ToBytes(values.value[..|values.value| - 6]);
  }

  // ---------------------------------------------------------------- round trips

  lemma LettersPlain(values: seq<nat>, upper: char -> bool)
    requires Fit(values, 32) && LetterCase(upper)
    ensures Lowercase(Letters(values), upper) && SEPARATOR !in Letters(values)
  {
    CharsetSize();
    forall i | 0 <= i < |values| ensures Letters(values)[i] != SEPARATOR && !upper(Letters(values)[i]) {
      CharsetPlain(values[i], upper);
    }
  }

  lemma {:induction false} SeparatorFound(hrp: string, data: string)
    requires SEPARATOR !in data
    ensures LastSeparator(hrp + [SEPARATOR] + data) == Some(|hrp|)
    decreases |data|
  {
    var text := hrp + [SEPARATOR] + data;
    if data == [] {
      assert text == hrp + [SEPARATOR];
    } else {
      var init, last := data[..|data| - 1], data[|data| - 1];
      assert last in data;
      assert text[|text| - 1] == last;
      assert text[..|text| - 1] == hrp + [SEPARATOR] + init;
      SeparatorFound(hrp, init);
    }
  }

  lemma SeparatorIsPlain(upper: char -> bool)
    requires LetterCase(upper)
    ensures !upper(SEPARATOR)
  {
  }

  /** What the encoder writes reads back as the bytes that went in, for every lower-case prefix. */
  lemma DecodeOfEncode(hrp: string, bytes: seq<nat>, upper: char -> bool)
    requires LetterCase(upper) && Fit(bytes, 256) && hrp != "" && Lowercase(hrp, upper)
    ensures Decode(Encode(hrp, bytes), hrp, upper) == Ok(bytes)
  {
    hide Words, Bytes, ChecksumOf, Letters, Indices, LastSeparator, Checks;
    WordsOfBytes(bytes);
    var words := Words(bytes);
    ChecksumFits(hrp, words);
    var sum := ChecksumOf(hrp, words);
    AppendSymbols(hrp, words, sum);
    var data := Letters(words + sum);
    var text := Encode(hrp, bytes);
    assert text == hrp + [SEPARATOR] + data;
    LettersPlain(words + sum, upper);
    SeparatorFound(hrp, data);
    SeparatorIsPlain(upper);
    assert Lowercase(text, upper);
    assert text[..|hrp|] == hrp && text[|hrp| + 1..] == data;
    IndicesOfLetters(words + sum);
    assert (words + sum)[..|words + sum| - 6] == words;
    BytesOfWords(bytes);
  }

  /** And whatever decodes is exactly what the encoder writes for the result. */
  lemma EncodeOfDecode(text: string, hrp: string, upper: char -> bool)
    requires Decode(text, hrp, upper).Ok?
    ensures hrp != "" && Lowercase(hrp, upper)
    ensures Fit(Decode(text, hrp, upper).value, 256) && Encode(hrp, Decode(text, hrp, upper).value) == text
  {
    hide Words, Bytes, ChecksumOf, Letters, Indices, LastSeparator, Checks;
    var at := LastSeparator(text).value;
    var data := text[at + 1..];
    var values := Indices(data).value;
    var words, sum := values[..|values| - 6], values[|values| - 6..];
    assert values == words + sum;
    WordsOfDecoded(words);
    ChecksumIsForced(hrp, words, sum);
    LettersOfIndices(data);
    assert text == text[..at] + [text[at]] + data;
    assert forall i :: 0 <= i < |hrp| ==> hrp[i] == text[i];
  }

  /** Together: decoding is the exact inverse of encoding, with no second spelling of any address. */
  lemma DecodeIffEncode(text: string, hrp: string, bytes: seq<nat>, upper: char -> bool)
    requires LetterCase(upper) && hrp != "" && Lowercase(hrp, upper)
    ensures Decode(text, hrp, upper) == Ok(bytes) <==> Fit(bytes, 256) && text == Encode(hrp, bytes)
  {
    hide Decode, Encode;
    if Decode(text, hrp, upper) == Ok(bytes) {
      EncodeOfDecode(text, hrp, upper);
    }
    if Fit(bytes, 256) && text == Encode(hrp, bytes) {
      DecodeOfEncode(hrp, bytes, upper);
    }
  }
}
