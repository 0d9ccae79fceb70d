/**
 * The random binary-string generator used for every record identifier.
 * `Math.round(Math.random())` is replaced by an oracle: `coin(k)` is the digit the
 * k-th draw of the process randomness source rounds to, and a call that starts at
 * draw `from` consumes draws `from, from + 1, ...`, one per character.
 */
module Identifiers {
  import opened JsValues

  function Digit(b: bool): char
  {
    if b then '1' else '0'
  }

  predicate IsBinary(s: string)
  {
    forall i :: 0 <= i < |s| ==> s[i] == '0' || s[i] == '1'
  }

  /** The n characters a generator call produces from draws from, ..., from + n - 1. */
  function BinaryDigits(coin: nat -> bool, from: nat, n: nat): string
  {
    if n == 0 then "" else BinaryDigits(coin, from, n - 1) + [Digit(coin(from + n - 1))]
  }

  /** How often `for (i = 0; i < length; i += 1)` runs: never when length coerces to NaN. */
  function Iterations(length: JsValue): nat
  {
    match ToNumber(length)
    case Some(n) => if n < 0 then 0 else n
    case None => 0
  }

  lemma {:induction false} BinaryDigitsShape(coin: nat -> bool, from: nat, n: nat)
    ensures |BinaryDigits(coin, from, n)| == n
    ensures forall k :: 0 <= k < n ==> BinaryDigits(coin, from, n)[k] == Digit(coin(from + k))
    ensures IsBinary(BinaryDigits(coin, from, n))
  {
    if n > 0 {
      BinaryDigitsShape(coin, from, n - 1);
    }
  }

  method GenerateRandomBinary(length: JsValue, coin: nat -> bool, from: nat) returns (binaryString: string)
    ensures binaryString == BinaryDigits(coin, from, Iterations(length))
    ensures IsBinary(binaryString)
    ensures length.Num? && length.n >= 0 ==> |binaryString| == length.n
    ensures ToNumber(length) == None ==> binaryString == ""
    ensures length == Num(0) ==> binaryString == ""
  {
    binaryString := "";
    var i := 0;
    while Below(i, length)
      invariant 0 <= i <= Iterations(length)
      invariant binaryString == BinaryDigits(coin, from, i)
      decreases Iterations(length) - i
    {
      var binaryDigit := Digit(coin(from + i));
      binaryString := binaryString + [binaryDigit];
      i := i + 1;
    }
    BinaryDigitsShape(coin, from, i);
    if ToNumber(length) == None {
      NaNComparesFalse(length);
    }
  }
}
